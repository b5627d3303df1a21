/** A dictionary that remembers insertion order, and totals over its keys. */
module Ordered {
  import opened Common

  /** The list without a key. */
  function Without<K(==,!new)>(keys: seq<K>, k: K): (r: seq<K>)
    ensures forall x :: x in r <==> x in keys && x != k
    ensures NoDup(keys) ==> NoDup(r) && |r| == |keys| - (if k in keys then 1 else 0)
  {
    if keys == [] then []
    else if keys[0] == k then
      assert NoDup(keys) ==> NoDup(keys[1..]) && k !in keys[1..];
      Without(keys[1..], k)
    else
      assert NoDup(keys) ==> NoDup(keys[1..]) && keys[0] !in keys[1..];
      [keys[0]] + Without(keys[1..], k)
  }

  /** The keys whose value passes a test, in order. */
  function Passing<K(==,!new), V>(keys: seq<K>, vals: map<K, V>, test: V -> bool): (r: seq<K>)
    ensures forall k :: k in r <==> k in keys && k in vals && test(vals[k])
    ensures NoDup(keys) ==> NoDup(r)
    ensures |r| <= |keys|
  {
    if keys == [] then []
    else
      assert NoDup(keys) ==> NoDup(keys[1..]) && keys[0] !in keys[1..];
      (if keys[0] in vals && test(vals[keys[0]]) then [keys[0]] else []) + Passing(keys[1..], vals, test)
  }

  datatype OrderedDict<K(==,!new), +V> = OrderedDict(keys: seq<K>, vals: map<K, V>)
  {
    ghost predicate Valid()
    {
      NoDup(keys) && forall k :: k in keys <==> k in vals
    }

    function Size(): nat { |keys| }

    /** Assigning a key keeps its place, or appends it. */
    function Put(k: K, v: V): (r: OrderedDict<K, V>)
      ensures Valid() ==> r.Valid()
    {
      OrderedDict(if k in vals then keys else keys + [k], vals[k := v])
    }

    function Delete(k: K): (r: OrderedDict<K, V>)
      ensures Valid() ==> r.Valid() && |r.keys| == |keys| - (if k in vals then 1 else 0)
    {
      OrderedDict(Without(keys, k), vals - {k})
    }

    /** Assigning a key and moving it behind every other key. */
    function PutLast(k: K, v: V): (r: OrderedDict<K, V>)
      ensures Valid() ==> r.Valid()
      ensures Valid() ==> |r.keys| == |keys| + (if k in vals then 0 else 1)
    {
      OrderedDict(Without(keys, k) + [k], vals[k := v])
    }

    /** The entries whose value passes a test, in order. */
    function Select(test: V -> bool): (r: OrderedDict<K, V>)
      ensures Valid() ==> r.Valid() && |r.keys| <= |keys|
      ensures forall k :: k in r.vals <==> k in vals && test(vals[k])
      ensures forall k :: k in r.vals ==> r.vals[k] == vals[k]
    {
      OrderedDict(Passing(keys, vals, test), map k | k in vals && test(vals[k]) :: vals[k])
    }

    /** Forgetting the oldest keys until at most n remain. */
    function Trim(n: nat): (r: OrderedDict<K, V>)
      ensures Valid() ==> r.Valid() && |r.keys| <= n
      ensures |keys| <= n ==> r == this
      ensures forall k :: k in r.vals ==> k in vals && r.vals[k] == vals[k]
      decreases |keys|
    {
      if |keys| <= n then this else OrderedDict(keys[1..], vals - {keys[0]}).Trim(n)
    }
  }

  function Empty<K(==,!new), V>(): (r: OrderedDict<K, V>)
    ensures r.Valid()
  {
    OrderedDict([], map[])
  }

  lemma {:induction false} TrimKeepsLast<K(!new), V>(d: OrderedDict<K, V>, n: nat)
    requires d.Valid() && 0 < n && 0 < |d.keys|
    ensures var k := d.keys[|d.keys| - 1];
      && k in d.vals && k in d.Trim(n).vals && d.Trim(n).vals[k] == d.vals[k]
      && 0 < |d.Trim(n).keys| && d.Trim(n).keys[|d.Trim(n).keys| - 1] == k
    decreases |d.keys|
  {
    assert d.keys[|d.keys| - 1] in d.keys;
    if |d.keys| > n {
      TrimKeepsLast(OrderedDict(d.keys[1..], d.vals - {d.keys[0]}), n);
    }
  }

  /** A key put last survives trimming to any positive size. */
  lemma TrimPutLast<K(!new), V>(d: OrderedDict<K, V>, k: K, v: V, n: nat)
    requires d.Valid()
    ensures var r := d.PutLast(k, v).Trim(n);
      r.Valid() && (0 < n ==> k in r.vals && r.vals[k] == v && 0 < |r.keys| && r.keys[|r.keys| - 1] == k)
  {
    if 0 < n {
      assert d.PutLast(k, v).keys[|Without(d.keys, k)|] == k;
      TrimKeepsLast(d.PutLast(k, v), n);
    }
  }

  lemma {:induction false} PassingAll<K(!new), V>(keys: seq<K>, vals: map<K, V>, test: V -> bool)
    requires forall k :: k in keys ==> k in vals && test(vals[k])
    ensures Passing(keys, vals, test) == keys
  {
    if keys != [] {
      assert forall k :: k in keys[1..] ==> k in keys;
      PassingAll(keys[1..], vals, test);
    }
  }

  lemma SelectAll<K(!new), V>(d: OrderedDict<K, V>, test: V -> bool)
    requires d.Valid() && forall k :: k in d.vals ==> test(d.vals[k])
    ensures d.Select(test) == d
  {
    PassingAll(d.keys, d.vals, test);
  }

  /** A dictionary whose first i keys have been swept. */
  ghost function SweptTo<K(!new), V>(d: OrderedDict<K, V>, test: V -> bool, i: nat): OrderedDict<K, V>
    requires i <= |d.keys|
  {
    OrderedDict(Passing(d.keys[..i], d.vals, test) + d.keys[i..],
                map k | k in d.vals && (k in d.keys[i..] || test(d.vals[k])) :: d.vals[k])
  }

  /** Deletes, one entry at a time, every entry that fails a test. */
  method Sweep<K(==,!new), V>(d: OrderedDict<K, V>, test: V -> bool) returns (r: OrderedDict<K, V>)
    requires d.Valid()
    ensures r == d.Select(test)
  {
    hide *;
    SweptAll(d, test);
    r := d;
    for i := 0 to |d.keys|
      invariant r == SweptTo(d, test, i)
    {
      SweptNext(d, test, i);
      if !test(r.vals[d.keys[i]]) {
        r := r.Delete(d.keys[i]);
      }
    }
  }

  lemma SweptAll<K(!new), V>(d: OrderedDict<K, V>, test: V -> bool)
    requires d.Valid()
    ensures SweptTo(d, test, 0) == d && SweptTo(d, test, |d.keys|) == d.Select(test)
  {
    assert d.keys[..|d.keys|] == d.keys && d.keys[0..] == d.keys;
  }

  lemma SweptNext<K(!new), V>(d: OrderedDict<K, V>, test: V -> bool, i: nat)
    requires d.Valid() && i < |d.keys|
    ensures var k := d.keys[i];
      var r := SweptTo(d, test, i);
      && k in r.vals && r.vals[k] == d.vals[k]
      && SweptTo(d, test, i + 1) == if test(d.vals[k]) then r else r.Delete(k)
  {
    SweepStep(d, test, i);
    hide *;
    SweptVals(d, test, i);
    SweptKeys(d, test, i);
  }

  lemma SweptVals<K(!new), V>(d: OrderedDict<K, V>, test: V -> bool, i: nat)
    requires i < |d.keys| && d.keys[i] in d.vals
    requires d.keys[i] !in d.keys[i + 1..]
    ensures var k := d.keys[i];
      var vals := SweptTo(d, test, i).vals;
      && k in vals && vals[k] == d.vals[k]
      && SweptTo(d, test, i + 1).vals == if test(d.vals[k]) then vals else vals - {k}
  {
    var k := d.keys[i];
    assert d.keys[i..] == [k] + d.keys[i + 1..];
    hide Passing;
    assert forall x :: x in d.keys[i..] <==> x == k || x in d.keys[i + 1..];
    assert k in d.keys[i..];
  }

  lemma SweptKeys<K(!new), V>(d: OrderedDict<K, V>, test: V -> bool, i: nat)
    requires i < |d.keys| && d.keys[i] in d.vals
    requires var k := d.keys[i];
      var front := Passing(d.keys[..i], d.vals, test);
      && Passing(d.keys[..i + 1], d.vals, test) == front + (if test(d.vals[k]) then [k] else [])
      && Without(front + d.keys[i..], k) == front + d.keys[i + 1..]
      && d.keys[i..] == [k] + d.keys[i + 1..]
    ensures var k := d.keys[i];
      var r := SweptTo(d, test, i);
      && SweptTo(d, test, i + 1).keys == (if test(d.vals[k]) then r.keys else r.Delete(k).keys)
      && r.Delete(k).vals == r.vals - {k}
  {
    hide Passing, Without, OrderedDict.Valid, OrderedDict.Select, OrderedDict.Trim;
  }

  lemma SweepStep<K(!new), V>(d: OrderedDict<K, V>, test: V -> bool, i: nat)
    requires d.Valid() && i < |d.keys|
    ensures var k := d.keys[i];
      var front := Passing(d.keys[..i], d.vals, test);
      && k in d.vals && k in d.keys[i..] && k !in d.keys[i + 1..] && k !in front
      && d.keys[i..] == [k] + d.keys[i + 1..]
      && Passing(d.keys[..i + 1], d.vals, test) == front + (if test(d.vals[k]) then [k] else [])
      && Without(front + d.keys[i..], k) == front + d.keys[i + 1..]
  {
    var k := d.keys[i];
    assert d.keys[..i + 1] == d.keys[..i] + [k];
    PassingAppend(d.keys[..i], k, d.vals, test);
    assert d.keys[i..] == [k] + d.keys[i + 1..];
    WithoutMiddle(Passing(d.keys[..i], d.vals, test), k, d.keys[i + 1..]);
  }

  lemma {:induction false} PassingAppend<K(!new), V>(keys: seq<K>, k: K, vals: map<K, V>, test: V -> bool)
    requires k in vals
    ensures Passing(keys + [k], vals, test) == Passing(keys, vals, test) + (if test(vals[k]) then [k] else [])
  {
    if keys == [] {
      assert keys + [k] == [k] && [k][1..] == [];
    } else {
      assert (keys + [k])[1..] == keys[1..] + [k];
      PassingAppend(keys[1..], k, vals, test);
    }
  }

  lemma {:induction false} WithoutMiddle<K(!new)>(a: seq<K>, k: K, b: seq<K>)
    requires k !in a && k !in b
    ensures Without(a + ([k] + b), k) == a + b
  {
    if a == [] {
      assert a + ([k] + b) == [k] + b && ([k] + b)[1..] == b;
      WithoutAbsent(b, k);
    } else {
      assert (a + ([k] + b))[1..] == a[1..] + ([k] + b);
      WithoutMiddle(a[1..], k, b);
    }
  }

  lemma {:induction false} WithoutAbsent<K(!new)>(keys: seq<K>, k: K)
    requires k !in keys
    ensures Without(keys, k) == keys
  {
    if keys != [] {
      WithoutAbsent(keys[1..], k);
    }
  }

  /** The values that pass a test, in key order. */
  function Picked<K(!new), V>(keys: seq<K>, vals: map<K, V>, test: V -> bool): (r: seq<V>)
    ensures |r| == |Passing(keys, vals, test)|
  {
    if keys == [] then []
    else (if keys[0] in vals && test(vals[keys[0]]) then [vals[keys[0]]] else []) + Picked(keys[1..], vals, test)
  }

  lemma {:induction false} PickedAt<K(!new), V>(keys: seq<K>, vals: map<K, V>, test: V -> bool)
    ensures forall i :: 0 <= i < |Picked(keys, vals, test)| ==>
      var k := Passing(keys, vals, test)[i]; k in vals && Picked(keys, vals, test)[i] == vals[k]
  {
    if keys != [] {
      PickedAt(keys[1..], vals, test);
    }
  }

  lemma {:induction false} PassingSame<K(!new), V>(keys: seq<K>, vals: map<K, V>, p: V -> bool, q: V -> bool)
    requires forall k :: k in vals ==> (p(vals[k]) <==> q(vals[k]))
    ensures Passing(keys, vals, p) == Passing(keys, vals, q)
  {
    if keys != [] {
      PassingSame(keys[1..], vals, p, q);
    }
  }

  lemma SelectSame<K(!new), V>(d: OrderedDict<K, V>, p: V -> bool, q: V -> bool)
    requires forall k :: k in d.vals ==> (p(d.vals[k]) <==> q(d.vals[k]))
    ensures d.Select(p) == d.Select(q)
  {
    PassingSame(d.keys, d.vals, p, q);
  }

  function Elements(s: seq<nat>): set<nat>
  {
    set x | x in s
  }

  lemma ElementsNext(s: seq<nat>, i: nat)
    requires i < |s|
    ensures Elements(s[..i + 1]) == Elements(s[..i]) + {s[i]}
    ensures s[..|s|] == s && Elements([]) == {}
  {
    assert s[..i + 1] == s[..i] + [s[i]];
  }

  // ---------------------------------------------------------------- sets in ascending order

  ghost function Least(s: set<nat>): (m: nat)
    requires s != {}
    ensures m in s && forall x :: x in s ==> m <= x
    decreases |s|
  {
    var k :| k in s;
    var rest := s - {k};
    assert s == rest + {k};
    if rest == {} then k
    else
      var l := Least(rest);
      if l < k then l else k
  }

  ghost function Ascending(s: set<nat>): seq<nat>
    decreases |s|
  {
    if s == {} then [] else [Least(s)] + Ascending(s - {Least(s)})
  }

  lemma {:induction false} AscendingFacts(s: set<nat>)
    ensures forall x :: x in Ascending(s) <==> x in s
    ensures NoDup(Ascending(s))
    decreases |s|
  {
    if s != {} {
      AscendingFacts(s - {Least(s)});
    }
  }

  method Sort(s: set<nat>) returns (r: seq<nat>)
    ensures r == Ascending(s)
  {
    r := [];
    var rest := s;
    while rest != {}
      invariant r + Ascending(rest) == Ascending(s)
      decreases |rest|
    {
      ghost var least := Least(rest);
      var m :| m in rest && forall x :: x in rest ==> m <= x;
      assert m == least;
      r := r + [m];
      rest := rest - {m};
    }
  }

  /** Sum of a weight over a list of keys. */
  function Total<K>(keys: seq<K>, weight: K -> nat): nat
  {
    if keys == [] then 0 else weight(keys[0]) + Total(keys[1..], weight)
  }

  lemma {:induction false} TotalAppend<K>(a: seq<K>, b: seq<K>, weight: K -> nat)
    ensures Total(a + b, weight) == Total(a, weight) + Total(b, weight)
  {
    if a == [] {
      assert a + b == b;
    } else {
      TotalAppend(a[1..], b, weight);
      assert (a + b)[1..] == a[1..] + b;
    }
  }

  lemma {:induction false} TotalWithout<K(!new)>(keys: seq<K>, k: K, weight: K -> nat)
    requires NoDup(keys)
    ensures Total(keys, weight) == Total(Without(keys, k), weight) + (if k in keys then weight(k) else 0)
  {
    if keys != [] {
      assert NoDup(keys[1..]) && keys[0] !in keys[1..];
      TotalWithout(keys[1..], k, weight);
      if keys[0] != k {
        assert ([keys[0]] + Without(keys[1..], k))[1..] == Without(keys[1..], k);
      }
    }
  }

  lemma {:induction false} TotalSame<K>(keys: seq<K>, f: K -> nat, g: K -> nat)
    requires forall k :: k in keys ==> f(k) == g(k)
    ensures Total(keys, f) == Total(keys, g)
  {
    if keys != [] {
      assert keys[0] in keys;
      assert forall k :: k in keys[1..] ==> k in keys;
      TotalSame(keys[1..], f, g);
    }
  }

  lemma {:induction false} TotalMember<K>(keys: seq<K>, k: K, weight: K -> nat)
    requires k in keys
    ensures weight(k) <= Total(keys, weight)
  {
    if keys[0] != k {
      TotalMember(keys[1..], k, weight);
    }
  }

  lemma TotalPut<K(!new)>(keys: seq<K>, k: K, f: K -> nat, g: K -> nat)
    requires NoDup(keys) && forall x :: x in keys && x != k ==> f(x) == g(x)
    ensures k in keys ==> Total(keys, g) + f(k) == Total(keys, f) + g(k)
    ensures k !in keys ==> Total(keys + [k], g) == Total(keys, f) + g(k)
  {
    TotalWithout(keys, k, f);
    TotalWithout(keys, k, g);
    TotalSame(Without(keys, k), f, g);
    if k !in keys {
      TotalSame(keys, f, g);
      TotalAppend(keys, [k], g);
      assert [k][1..] == [];
    }
  }

  lemma {:induction false} TotalPassing<K(!new), V>(keys: seq<K>, vals: map<K, V>, test: V -> bool, f: K -> nat, g: K -> nat)
    requires forall k :: k in keys ==> f(k) >= g(k)
    ensures Total(Passing(keys, vals, test), g) <= Total(keys, f)
  {
    if keys != [] {
      assert forall k :: k in keys[1..] ==> k in keys;
      TotalPassing(keys[1..], vals, test, f, g);
      var rest := Passing(keys[1..], vals, test);
      assert keys[0] in keys;
      if keys[0] in vals && test(vals[keys[0]]) {
        assert Passing(keys, vals, test) == [keys[0]] + rest;
        assert ([keys[0]] + rest)[1..] == rest;
      } else {
        assert Passing(keys, vals, test) == rest;
      }
    }
  }

  lemma {:induction false} PassingNone<K(!new), V>(keys: seq<K>, vals: map<K, V>, test: V -> bool)
    requires forall k :: k in keys && k in vals ==> !test(vals[k])
    ensures Passing(keys, vals, test) == []
  {
    if keys != [] {
      assert keys[0] in keys && forall k :: k in keys[1..] ==> k in keys;
      PassingNone(keys[1..], vals, test);
    }
  }

  lemma {:induction false} TotalAll<K(!new)>(keys: seq<K>, weight: K -> nat)
    requires forall k :: k in keys ==> weight(k) == 1
    ensures Total(keys, weight) == |keys|
  {
    if keys != [] {
      assert keys[0] in keys && forall k :: k in keys[1..] ==> k in keys;
      TotalAll(keys[1..], weight);
    }
  }
}
