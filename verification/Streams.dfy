/** Evidence streams: what several senders record is saved as one stream, sender after sender. */
module Streams {
  import opened Common
  import opened Chain

  /** The rows of one origin, in order. */
  function From(rows: seq<Row>, origin: nat): (r: seq<Row>)
    ensures forall x :: x in r ==> x in rows && x.origin == origin
  {
    if rows == [] then []
    else From(rows[..|rows| - 1], origin) + (var last := rows[|rows| - 1]; if last.origin == origin then [last] else [])
  }

  /** The rows saved for stream s: those of its producers, one producer after the other. */
  function MergedStream(parts: seq<seq<Row>>, stream: seq<nat>, s: nat): seq<Row>
    requires |parts| == |stream|
  {
    if parts == [] then []
    else
      var n := |parts| - 1;
      MergedStream(parts[..n], stream[..n], s) + (if stream[n] == s then parts[n] else [])
  }

  function Merged(parts: seq<seq<Row>>, stream: seq<nat>, count: nat): (r: seq<seq<Row>>)
    requires |parts| == |stream|
    ensures |r| == count
  {
    seq(count, s requires 0 <= s => MergedStream(parts, stream, s))
  }

  /** Producers of one stream have distinct origins. */
  predicate Told(stream: seq<nat>, origins: seq<nat>)
  {
    |stream| == |origins| && forall i, j :: 0 <= i < j < |stream| && stream[i] == stream[j] ==> origins[i] != origins[j]
  }

  predicate Tagged(rows: seq<Row>, origin: nat)
  {
    forall x :: x in rows ==> x.origin == origin
  }

  lemma {:induction false} FromAppend(a: seq<Row>, b: seq<Row>, origin: nat)
    ensures From(a + b, origin) == From(a, origin) + From(b, origin)
  {
    if b == [] {
      assert a + b == a;
    } else {
      var n := |b| - 1;
      assert (a + b)[..|a + b| - 1] == a + b[..n];
      FromAppend(a, b[..n], origin);
    }
  }

  lemma {:induction false} FromTagged(rows: seq<Row>, tag: nat, origin: nat)
    requires Tagged(rows, tag)
    ensures From(rows, origin) == if tag == origin then rows else []
  {
    if rows != [] {
      var n := |rows| - 1;
      assert rows == rows[..n] + [rows[n]] && rows[n] in rows;
      FromTagged(rows[..n], tag, origin);
    }
  }

  /** From the one saved stream each of its producers' rows can be told, in order. */
  lemma {:induction false} FromMerged(parts: seq<seq<Row>>, stream: seq<nat>, origins: seq<nat>, k: nat)
    requires |parts| == |stream| && Told(stream, origins) && k < |parts|
    requires forall j :: 0 <= j < |parts| ==> Tagged(parts[j], origins[j])
    ensures From(MergedStream(parts, stream, stream[k]), origins[k]) == parts[k]
    decreases |parts|
  {
    hide *;
    var n := |parts| - 1;
    ToldFront(stream, origins, n);
    MergedLast(parts, stream, stream[k]);
    var rest := MergedStream(parts[..n], stream[..n], stream[k]);
    FromAppend(rest, if stream[n] == stream[k] then parts[n] else [], origins[k]);
    FromTagged(parts[n], origins[n], origins[k]);
    FromNone(origins[k]);
    if k < n {
      FromMerged(parts[..n], stream[..n], origins[..n], k);
    } else {
      NoneFrom(parts[..n], stream[..n], origins[..n], stream[k], origins[k]);
    }
  }

  lemma MergedLast(parts: seq<seq<Row>>, stream: seq<nat>, s: nat)
    requires |parts| == |stream| > 0
    ensures var n := |parts| - 1;
      MergedStream(parts, stream, s) == MergedStream(parts[..n], stream[..n], s) + (if stream[n] == s then parts[n] else [])
  {
  }

  lemma ToldFront(stream: seq<nat>, origins: seq<nat>, n: nat)
    requires Told(stream, origins) && n < |stream|
    ensures |stream| == |origins| && Told(stream[..n], origins[..n])
    ensures forall j :: 0 <= j < n && stream[j] == stream[n] ==> origins[j] != origins[n]
  {
  }

  lemma {:induction false} NoneFrom(parts: seq<seq<Row>>, stream: seq<nat>, origins: seq<nat>, s: nat, origin: nat)
    requires |parts| == |stream| == |origins|
    requires forall j :: 0 <= j < |parts| ==> Tagged(parts[j], origins[j]) && (stream[j] == s ==> origins[j] != origin)
    ensures From(MergedStream(parts, stream, s), origin) == []
  {
    if parts != [] {
      var n := |parts| - 1;
      NoneFrom(parts[..n], stream[..n], origins[..n], s, origin);
      FromAppend(MergedStream(parts[..n], stream[..n], s), if stream[n] == s then parts[n] else [], origin);
      FromTagged(parts[n], origins[n], origin);
    }
  }

  /** No other producer writes this stream. */
  predicate Alone(stream: seq<nat>, k: nat)
    requires k < |stream|
  {
    forall j :: 0 <= j < |stream| && j != k ==> stream[j] != stream[k]
  }

  /** A stream with one producer is that producer's rows. */
  lemma {:induction false} MergedAlone(parts: seq<seq<Row>>, stream: seq<nat>, k: nat)
    requires |parts| == |stream| && k < |parts| && Alone(stream, k)
    ensures MergedStream(parts, stream, stream[k]) == parts[k]
    decreases |parts|
  {
    var n := |parts| - 1;
    if k < n {
      MergedAlone(parts[..n], stream[..n], k);
    } else {
      MergedNone(parts[..n], stream[..n], stream[k]);
    }
  }

  lemma {:induction false} MergedNone(parts: seq<seq<Row>>, stream: seq<nat>, s: nat)
    requires |parts| == |stream| && forall j :: 0 <= j < |stream| ==> stream[j] != s
    ensures MergedStream(parts, stream, s) == []
  {
    if parts != [] {
      MergedNone(parts[..|parts| - 1], stream[..|parts| - 1], s);
    }
  }

  // ---------------------------------------------------------------- the order within a stream

  /** The rows recorded by senders 0, …, n - 1, sender after sender; a row's origin is its sender. */
  function BySender(order: seq<Row>, n: nat): seq<Row>
  {
    if n == 0 then [] else BySender(order, n - 1) + From(order, n - 1)
  }

  /** No row of a later sender was recorded before a row of an earlier one. */
  predicate Sequential(order: seq<Row>)
  {
    forall i, j :: 0 <= i < j < |order| ==> order[i].origin <= order[j].origin
  }

  lemma {:induction false} BySenderSequential(order: seq<Row>, n: nat)
    ensures Sequential(BySender(order, n)) && forall x :: x in BySender(order, n) ==> x.origin < n
  {
    if n > 0 {
      BySenderSequential(order, n - 1);
      var a, b := BySender(order, n - 1), From(order, n - 1);
      var c: seq<Row> := a + b;
      forall i, j | 0 <= i < j < |c| ensures c[i].origin <= c[j].origin {
        assert c[i] == if i < |a| then a[i] else b[i - |a|];
        assert c[j] == if j < |a| then a[j] else b[j - |a|];
        assert i < |a| ==> a[i] in a;
        assert i >= |a| ==> b[i - |a|] in b;
        assert j >= |a| ==> b[j - |a|] in b;
      }
    }
  }

  lemma {:induction false} BySenderLast(order: seq<Row>, last: Row, n: nat)
    requires forall x :: x in order ==> x.origin <= last.origin
    ensures BySender(order + [last], n) == BySender(order, n) + (if last.origin < n then [last] else [])
  {
    hide *;
    BySenderStep(order, n);
    BySenderStep(order + [last], n);
    if n > 0 {
      BySenderLast(order, last, n - 1);
      FromLast(order, last, n - 1);
      if last.origin < n - 1 {
        NoLater(order, n - 1);
      }
    }
  }

  lemma BySenderStep(order: seq<Row>, n: nat)
    ensures BySender(order, n) == if n == 0 then [] else BySender(order, n - 1) + From(order, n - 1)
  {
  }

  lemma FromNone(origin: nat)
    ensures From([], origin) == []
  {
  }

  lemma FromLast(order: seq<Row>, last: Row, origin: nat)
    ensures From(order + [last], origin) == From(order, origin) + (if last.origin == origin then [last] else [])
  {
    assert (order + [last])[..|order|] == order;
  }

  lemma {:induction false} NoLater(order: seq<Row>, origin: nat)
    requires forall x :: x in order ==> x.origin < origin
    ensures From(order, origin) == []
  {
    hide *;
    if order == [] {
      FromNone(origin);
    } else {
      var n := |order| - 1;
      assert order == order[..n] + [order[n]] && order[n] in order;
      assert forall x :: x in order[..n] ==> x in order;
      NoLater(order[..n], origin);
      FromLast(order[..n], order[n], origin);
    }
  }

  lemma {:induction false} SequentialKept(order: seq<Row>, n: nat)
    requires Sequential(order) && forall x :: x in order ==> x.origin < n
    ensures BySender(order, n) == order
  {
    if order == [] {
      NothingBySender(n);
    } else {
      var m := |order| - 1;
      assert order == order[..m] + [order[m]] && order[m] in order;
      assert forall x :: x in order[..m] ==> x in order;
      forall x | x in order[..m] ensures x.origin <= order[m].origin {
        var i :| 0 <= i < m && order[i] == x;
      }
      SequentialKept(order[..m], n);
      BySenderLast(order[..m], order[m], n);
    }
  }

  lemma {:induction false} NothingBySender(n: nat)
    ensures BySender([], n) == []
  {
    if n > 0 {
      NothingBySender(n - 1);
    }
  }

  /** The saved stream is in recording order exactly when the senders recorded one after the other. */
  lemma SavedInOrder(order: seq<Row>, n: nat)
    requires forall x :: x in order ==> x.origin < n
    ensures BySender(order, n) == order <==> Sequential(order)
  {
    BySenderSequential(order, n);
    if Sequential(order) {
      SequentialKept(order, n);
    }
  }

  /** Saving what n senders recorded gives their rows sender after sender. */
  lemma {:induction false} MergedBySender(order: seq<Row>, parts: seq<seq<Row>>, stream: seq<nat>, s: nat)
    requires |parts| == |stream| && forall k :: 0 <= k < |parts| ==> stream[k] == s && parts[k] == From(order, k)
    ensures MergedStream(parts, stream, s) == BySender(order, |parts|)
  {
    if parts != [] {
      var n := |parts| - 1;
      MergedBySender(order, parts[..n], stream[..n], s);
    }
  }

  /** Two senders taking turns: what is saved is not what was recorded first. */
  lemma TakingTurns(a: Row, b: Row, c: Row)
    requires a.origin == 0 && b.origin == 1 && c.origin == 0
    ensures BySender([a, b, c], 2) == [a, c, b]
  {
    hide *;
    var none: seq<Row> := [];
    assert [a, b, c] == ((none + [a]) + [b]) + [c];
    forall origin: nat
      ensures From([a, b, c], origin) == if origin == 0 then [a, c] else if origin == 1 then [b] else []
    {
      FromNone(origin);
      FromLast(none, a, origin);
      FromLast(none + [a], b, origin);
      FromLast(none + [a] + [b], c, origin);
    }
    BySenderStep([a, b, c], 2);
    BySenderStep([a, b, c], 1);
    BySenderStep([a, b, c], 0);
  }
}
