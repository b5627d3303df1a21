/** Packed engineering payloads described by an arbitrary catalogue field table. */
module Payload {
  import opened Common
  import opened Struct

  /** A 64-bit float is carried as its bit pattern; only floats occur in arrays. */
  datatype FieldType =
    | F64
    | F64Array(length: nat)
    | U32le
    | U16le
    | Bool8
    | Enum8(table: seq<(string, byte)>)

  datatype Field = Field(name: string, kind: FieldType, offset: nat)
  {
    function Width(): nat
    {
      match kind
      case F64 => 8
      case F64Array(n) => 8 * n
      case U32le => 4
      case U16le => 2
      case Bool8 => 1
      case Enum8(_) => 1
    }

    predicate Covers(k: int) { offset <= k < offset + Width() }
  }

  datatype Value =
    | Number(n: nat)
    | Float(bits: nat)
    | Floats(all: seq<nat>)
    | Flag(on: bool)
    | Name(text: string)

  const F64_LIMIT: nat := 0x1_0000_0000_0000_0000

  /** The values the message schema admits for a field. */
  predicate Admits(kind: FieldType, v: Value)
  {
    match kind
    case F64 => v.Float? && v.bits < F64_LIMIT
    case F64Array(n) => v.Floats? && |v.all| == n && forall i :: 0 <= i < n ==> v.all[i] < F64_LIMIT
    case U32le => v.Number? && v.n <= U32_MAX
    case U16le => v.Number? && v.n < 0x1_0000
    case Bool8 => v.Flag?
    case Enum8(table) => v.Name? && CodeOf(table, v.text).Some?
  }

  function PackFloats(all: seq<nat>): (r: seq<byte>)
    ensures |r| == 8 * |all|
  {
    if all == [] then [] else PackLE(all[0], 8) + PackFloats(all[1..])
  }

  function UnpackFloats(raw: seq<byte>, n: nat): (r: seq<nat>)
    requires |raw| == 8 * n
    ensures |r| == n
  {
    if n == 0 then [] else [UnpackLE(raw[..8])] + UnpackFloats(raw[8..], n - 1)
  }

  function FieldBytes(f: Field, v: Value): (r: seq<byte>)
    requires Admits(f.kind, v)
    ensures |r| == f.Width()
  {
    match f.kind
    case F64 => PackLE(v.bits, 8)
    case F64Array(_) => PackFloats(v.all)
    case U32le => PackLE(v.n, 4)
    case U16le => PackLE(v.n, 2)
    case Bool8 => [if v.on then 1 else 0]
    case Enum8(table) => [CodeOf(table, v.text).value]
  }

  /** The code of a name in an enumeration table, which lists each name once. */
  function CodeOf(table: seq<(string, byte)>, name: string): Option<byte>
  {
    if table == [] then None
    else if table[0].0 == name then Some(table[0].1)
    else CodeOf(table[1..], name)
  }

  /** The name a code stands for: the last entry wins when the table repeats a code. */
  function NameOf(table: seq<(string, byte)>, code: byte): Option<string>
  {
    if table == [] then None
    else
      var later := NameOf(table[1..], code);
      if later.Some? then later
      else if table[0].1 == code then Some(table[0].0)
      else None
  }

  function ReadField(f: Field, raw: seq<byte>): (r: Result<Value>)
    requires |raw| == f.Width()
  {
    match f.kind
    case F64 => Ok(Float(UnpackLE(raw)))
    case F64Array(n) => Ok(Floats(UnpackFloats(raw, n)))
    case U32le => Ok(Number(UnpackLE(raw)))
    case U16le => Ok(Number(UnpackLE(raw)))
    case Bool8 => if raw[0] <= 1 then Ok(Flag(raw[0] == 1)) else Err(Schema)
    case Enum8(table) =>
      var name := NameOf(table, raw[0]);
      if name.Some? then Ok(Name(name.value)) else Err(Schema)
  }

  // ---------------------------------------------------------------- field tables

  predicate InBounds(fields: seq<Field>, size: nat)
  {
    forall i :: 0 <= i < |fields| ==> fields[i].offset + fields[i].Width() <= size
  }

  predicate Disjoint(fields: seq<Field>)
  {
    forall i, j :: 0 <= i < j < |fields| ==>
      || fields[i].offset + fields[i].Width() <= fields[j].offset
      || fields[j].offset + fields[j].Width() <= fields[i].offset
  }

  predicate NamesDiffer(fields: seq<Field>)
  {
    forall i, j :: 0 <= i < j < |fields| ==> fields[i].name != fields[j].name
  }

  predicate TablesUnambiguous(fields: seq<Field>)
  {
    forall i :: 0 <= i < |fields| && fields[i].kind.Enum8? ==> NamesOnce(fields[i].kind.table)
  }

  predicate NamesOnce(table: seq<(string, byte)>)
  {
    forall i, j :: 0 <= i < j < |table| ==> table[i].0 != table[j].0
  }

  predicate CodesOnce(table: seq<(string, byte)>)
  {
    forall i, j :: 0 <= i < j < |table| ==> table[i].1 != table[j].1
  }

  predicate Covered(fields: seq<Field>, k: int)
  {
    exists i :: 0 <= i < |fields| && fields[i].Covers(k)
  }

  /** A catalogue table for payloads of the given size. */
  predicate Table(fields: seq<Field>, size: nat)
  {
    InBounds(fields, size) && Disjoint(fields) && NamesDiffer(fields) && TablesUnambiguous(fields)
  }

  predicate Conforms(fields: seq<Field>, p: map<string, Value>)
  {
    && (forall i :: 0 <= i < |fields| ==> fields[i].name in p && Admits(fields[i].kind, p[fields[i].name]))
    && (forall name :: name in p ==> Lists(fields, name))
  }

  predicate Lists(fields: seq<Field>, name: string)
  {
    exists i :: 0 <= i < |fields| && fields[i].name == name
  }

  function Slice(f: Field, raw: seq<byte>): (r: seq<byte>)
    requires f.offset + f.Width() <= |raw|
    ensures |r| == f.Width()
  {
    raw[f.offset..f.offset + f.Width()]
  }

  /** The buffer after the fields are written in table order. */
  function Written(fields: seq<Field>, p: map<string, Value>, raw: seq<byte>): (r: seq<byte>)
    requires InBounds(fields, |raw|)
    requires forall i :: 0 <= i < |fields| ==> fields[i].name in p && Admits(fields[i].kind, p[fields[i].name])
    ensures |r| == |raw|
  {
    if fields == [] then raw
    else
      var f := fields[0];
      Written(fields[1..], p, Replaced(raw, f.offset, FieldBytes(f, p[f.name])))
  }

  /** The dictionary after the fields are read in table order, or the first rejection. */
  function ReadAll(fields: seq<Field>, raw: seq<byte>, acc: map<string, Value>): Result<map<string, Value>>
    requires InBounds(fields, |raw|)
  {
    if fields == [] then Ok(acc)
    else
      var f := fields[0];
      var v := ReadField(f, Slice(f, raw));
      if v.Err? then Err(v.code) else ReadAll(fields[1..], raw, acc[f.name := v.value])
  }

  function Encoding(fields: seq<Field>, size: nat, p: map<string, Value>): (r: seq<byte>)
    requires InBounds(fields, size) && Conforms(fields, p)
  {
    Written(fields, p, Zeros(size))
  }

  function Decoding(fields: seq<Field>, size: nat, raw: seq<byte>): Result<map<string, Value>>
    requires InBounds(fields, size)
  {
    if |raw| != size then Err(Schema) else ReadAll(fields, raw, map[])
  }

  method Encode(fields: seq<Field>, size: nat, p: map<string, Value>) returns (r: seq<byte>)
    requires InBounds(fields, size) && Conforms(fields, p)
    ensures r == Encoding(fields, size, p)
  {
    var raw := new byte[size](_ => 0);
    assert raw[..] == Zeros(size);
    for i := 0 to |fields|
      invariant Written(fields[i..], p, raw[..]) == Encoding(fields, size, p)
    {
      var f := fields[i];
      assert fields[i..][1..] == fields[i + 1..] && fields[i..][0] == f;
      PackInto(raw, f.offset, FieldBytes(f, p[f.name]));
    }
    return raw[..];
  }

  method Decode(fields: seq<Field>, size: nat, raw: seq<byte>) returns (r: Result<map<string, Value>>)
    requires InBounds(fields, size)
    ensures r == Decoding(fields, size, raw)
  {
    if |raw| != size {
      return Err(Schema);
    }
    var payload: map<string, Value> := map[];
    for i := 0 to |fields|
      invariant ReadAll(fields[i..], raw, payload) == ReadAll(fields, raw, map[])
    {
      var f := fields[i];
      assert fields[i..][1..] == fields[i + 1..] && fields[i..][0] == f;
      var v := ReadField(f, raw[f.offset..f.offset + f.Width()]);
      if v.Err? {
        return Err(v.code);
      }
      payload := payload[f.name := v.value];
    }
    return Ok(payload);
  }

  // ---------------------------------------------------------------- single fields

  lemma {:induction false} CodeOfIndex(table: seq<(string, byte)>, i: nat)
    requires NamesOnce(table) && i < |table|
    ensures CodeOf(table, table[i].0) == Some(table[i].1)
  {
    if i > 0 {
      assert table[0].0 != table[i].0;
      CodeOfIndex(table[1..], i - 1);
    }
  }

  lemma {:induction false} CodeOfFound(table: seq<(string, byte)>, name: string)
    requires CodeOf(table, name).Some?
    ensures exists i :: 0 <= i < |table| && table[i] == (name, CodeOf(table, name).value)
  {
    if table[0].0 == name {
      assert table[0] == (name, CodeOf(table, name).value);
    } else {
      CodeOfFound(table[1..], name);
      var i :| 0 <= i < |table[1..]| && table[1..][i] == (name, CodeOf(table[1..], name).value);
      assert table[i + 1] == (name, CodeOf(table, name).value);
    }
  }

  lemma {:induction false} NameOfFound(table: seq<(string, byte)>, code: byte)
    requires NameOf(table, code).Some?
    ensures exists i :: 0 <= i < |table| && table[i] == (NameOf(table, code).value, code)
  {
    if NameOf(table[1..], code).Some? {
      NameOfFound(table[1..], code);
      var i :| 0 <= i < |table[1..]| && table[1..][i] == (NameOf(table[1..], code).value, code);
      assert table[i + 1] == (NameOf(table, code).value, code);
    } else {
      assert table[0] == (NameOf(table, code).value, code);
    }
  }

  lemma {:induction false} NameOfIndex(table: seq<(string, byte)>, i: nat)
    requires i < |table|
    ensures NameOf(table, table[i].1).Some?
  {
    if i > 0 {
      NameOfIndex(table[1..], i - 1);
    }
  }

  /** Reading a name back gives it for every name of the table exactly when no two names share a code. */
  lemma EnumRoundTrip(table: seq<(string, byte)>)
    requires NamesOnce(table)
    ensures (forall name :: CodeOf(table, name).Some? ==> NameOf(table, CodeOf(table, name).value) == Some(name))
      <==> CodesOnce(table)
  {
    if CodesOnce(table) {
      forall name | CodeOf(table, name).Some?
        ensures NameOf(table, CodeOf(table, name).value) == Some(name)
      {
        CodeOfFound(table, name);
        var i :| 0 <= i < |table| && table[i] == (name, CodeOf(table, name).value);
        NameOfIndex(table, i);
        NameOfFound(table, table[i].1);
      }
    } else {
      var i, j :| 0 <= i < j < |table| && table[i].1 == table[j].1;
      CodeOfIndex(table, i);
      CodeOfIndex(table, j);
      assert table[i].0 != table[j].0;
    }
  }

  lemma {:induction false} FloatsRoundTrip(all: seq<nat>)
    requires forall i :: 0 <= i < |all| ==> all[i] < F64_LIMIT
    ensures UnpackFloats(PackFloats(all), |all|) == all
  {
    if all != [] {
      PowEight();
      UnpackPackLE(all[0], 8);
      FloatsRoundTrip(all[1..]);
      assert PackFloats(all)[..8] == PackLE(all[0], 8);
      assert PackFloats(all)[8..] == PackFloats(all[1..]);
    }
  }

  lemma {:induction false} FloatBytesRoundTrip(raw: seq<byte>, n: nat)
    requires |raw| == 8 * n
    ensures PackFloats(UnpackFloats(raw, n)) == raw
    ensures forall i :: 0 <= i < n ==> UnpackFloats(raw, n)[i] < F64_LIMIT
  {
    if n > 0 {
      PowEight();
      PackUnpackLE(raw[..8]);
      FloatBytesRoundTrip(raw[8..], n - 1);
      assert UnpackFloats(raw, n)[1..] == UnpackFloats(raw[8..], n - 1);
      assert raw == raw[..8] + raw[8..];
    }
  }

  lemma PowEight()
    ensures Pow256(8) == F64_LIMIT && Pow256(4) == 0x1_0000_0000 && Pow256(2) == 0x1_0000
  {
    assert Pow256(6) == 0x1_0000_0000_0000;
  }

  lemma FieldRoundTrip(f: Field, v: Value)
    requires Admits(f.kind, v)
    requires f.kind.Enum8? ==> NamesOnce(f.kind.table) && CodesOnce(f.kind.table)
    ensures ReadField(f, FieldBytes(f, v)) == Ok(v)
  {
    PowEight();
    match f.kind
    case F64 => UnpackPackLE(v.bits, 8);
    case F64Array(n) => FloatsRoundTrip(v.all);
    case U32le => UnpackPackLE(v.n, 4);
    case U16le => UnpackPackLE(v.n, 2);
    case Bool8 =>
    case Enum8(table) =>
      EnumRoundTrip(table);
      assert NameOf(table, CodeOf(table, v.text).value) == Some(v.text);
  }

  lemma FieldBytesRoundTrip(f: Field, raw: seq<byte>)
    requires |raw| == f.Width() && ReadField(f, raw).Ok?
    requires f.kind.Enum8? ==> NamesOnce(f.kind.table)
    ensures Admits(f.kind, ReadField(f, raw).value)
    ensures FieldBytes(f, ReadField(f, raw).value) == raw
  {
    PowEight();
    match f.kind
    case F64 => PackUnpackLE(raw);
    case F64Array(n) => FloatBytesRoundTrip(raw, n);
    case U32le => PackUnpackLE(raw);
    case U16le => PackUnpackLE(raw);
    case Bool8 =>
    case Enum8(table) =>
      NameOfFound(table, raw[0]);
      var i :| 0 <= i < |table| && table[i] == (NameOf(table, raw[0]).value, raw[0]);
      CodeOfIndex(table, i);
  }

  // ---------------------------------------------------------------- whole payloads

  predicate Writable(fields: seq<Field>, p: map<string, Value>)
  {
    forall i :: 0 <= i < |fields| ==> fields[i].name in p && Admits(fields[i].kind, p[fields[i].name])
  }

  /** Writing leaves the bytes outside every field alone. */
  lemma {:induction false} WrittenOutside(fields: seq<Field>, p: map<string, Value>, raw: seq<byte>, k: nat)
    requires InBounds(fields, |raw|) && Writable(fields, p)
    requires k < |raw| && forall i :: 0 <= i < |fields| ==> !fields[i].Covers(k)
    ensures Written(fields, p, raw)[k] == raw[k]
  {
    if fields != [] {
      var f := fields[0];
      var next := Replaced(raw, f.offset, FieldBytes(f, p[f.name]));
      assert !f.Covers(k);
      assert next[k] == raw[k];
      forall i | 0 <= i < |fields[1..]| ensures !fields[1..][i].Covers(k) {
        assert fields[1..][i] == fields[i + 1];
      }
      WrittenOutside(fields[1..], p, next, k);
    }
  }

  /** Each field of disjoint fields ends up holding its own bytes. */
  lemma {:induction false} WrittenField(fields: seq<Field>, p: map<string, Value>, raw: seq<byte>, i: nat)
    requires InBounds(fields, |raw|) && Writable(fields, p) && Disjoint(fields) && i < |fields|
    ensures Slice(fields[i], Written(fields, p, raw)) == FieldBytes(fields[i], p[fields[i].name])
  {
    var f := fields[0];
    var bytes := FieldBytes(f, p[f.name]);
    var next := Replaced(raw, f.offset, bytes);
    if i == 0 {
      var final := Written(fields, p, raw);
      forall k | f.offset <= k < f.offset + f.Width() ensures final[k] == bytes[k - f.offset] {
        forall j | 0 <= j < |fields[1..]| ensures !fields[1..][j].Covers(k) {
          assert fields[1..][j] == fields[j + 1];
        }
        WrittenOutside(fields[1..], p, next, k);
        assert next[k] == bytes[k - f.offset];
      }
      assert Slice(f, final) == bytes;
    } else {
      assert fields[1..][i - 1] == fields[i];
      WrittenField(fields[1..], p, next, i - 1);
    }
  }

  lemma ListsStep(fields: seq<Field>, name: string)
    requires fields != []
    ensures Lists(fields, name) <==> fields[0].name == name || Lists(fields[1..], name)
  {
    if Lists(fields, name) {
      var i :| 0 <= i < |fields| && fields[i].name == name;
      assert i == 0 || fields[1..][i - 1].name == name;
    }
    if Lists(fields[1..], name) {
      var i :| 0 <= i < |fields[1..]| && fields[1..][i].name == name;
      assert fields[i + 1].name == name;
    }
  }

  /** A name that no field of the table bears keeps its value. */
  lemma {:induction false} ReadAllKeeps(fields: seq<Field>, raw: seq<byte>, acc: map<string, Value>, name: string)
    requires InBounds(fields, |raw|) && ReadAll(fields, raw, acc).Ok?
    ensures name in ReadAll(fields, raw, acc).value <==> name in acc || Lists(fields, name)
    ensures name in acc && !Lists(fields, name) ==> ReadAll(fields, raw, acc).value[name] == acc[name]
  {
    if fields != [] {
      var f := fields[0];
      var v := ReadField(f, Slice(f, raw));
      hide ReadField, Slice;
      ListsStep(fields, name);
      ReadAllKeeps(fields[1..], raw, acc[f.name := v.value], name);
    }
  }

  /** Reading succeeds only if every field reads, and then holds each field's value. */
  lemma {:induction false} ReadAllField(fields: seq<Field>, raw: seq<byte>, acc: map<string, Value>, i: nat)
    requires InBounds(fields, |raw|) && NamesDiffer(fields) && i < |fields|
    requires ReadAll(fields, raw, acc).Ok?
    ensures fields[i].name in ReadAll(fields, raw, acc).value
    ensures ReadField(fields[i], Slice(fields[i], raw)) == Ok(ReadAll(fields, raw, acc).value[fields[i].name])
  {
    hide ReadField, Slice;
    var f := fields[0];
    var v := ReadField(f, Slice(f, raw));
    if i == 0 {
      assert !Lists(fields[1..], f.name);
      ReadAllKeeps(fields[1..], raw, acc[f.name := v.value], f.name);
    } else {
      assert fields[1..][i - 1] == fields[i];
      ReadAllField(fields[1..], raw, acc[f.name := v.value], i - 1);
    }
  }

  lemma {:induction false} ReadAllSucceeds(fields: seq<Field>, raw: seq<byte>, acc: map<string, Value>)
    requires InBounds(fields, |raw|)
    requires forall i :: 0 <= i < |fields| ==> ReadField(fields[i], Slice(fields[i], raw)).Ok?
    ensures ReadAll(fields, raw, acc).Ok?
  {
    hide ReadField, Slice;
    if fields != [] {
      var f := fields[0];
      ReadAllSucceeds(fields[1..], raw, acc[f.name := ReadField(f, Slice(f, raw)).value]);
    }
  }

  /** Decoding what was encoded gives the payload back, for every table whose codes are unambiguous. */
  lemma DecodeEncode(fields: seq<Field>, size: nat, p: map<string, Value>)
    requires Table(fields, size) && Conforms(fields, p)
    requires forall i :: 0 <= i < |fields| && fields[i].kind.Enum8? ==> CodesOnce(fields[i].kind.table)
    ensures Decoding(fields, size, Encoding(fields, size, p)) == Ok(p)
  {
    hide ReadField, Slice, Written, FieldBytes, Admits;
    var raw := Encoding(fields, size, p);
    forall i | 0 <= i < |fields|
      ensures ReadField(fields[i], Slice(fields[i], raw)) == Ok(p[fields[i].name])
    {
      WrittenField(fields, p, Zeros(size), i);
      FieldRoundTrip(fields[i], p[fields[i].name]);
    }
    ReadAllSucceeds(fields, raw, map[]);
    var q := ReadAll(fields, raw, map[]).value;
    forall name ensures name in q <==> name in p {
      ReadAllKeeps(fields, raw, map[], name);
    }
    forall name | name in p ensures q[name] == p[name] {
      var i :| 0 <= i < |fields| && fields[i].name == name;
      ReadAllField(fields, raw, map[], i);
    }
    assert q == p;
  }

  /**
   * Re-encoding an accepted payload gives its bytes back exactly when the bytes outside every field are
   * zero; a table that tiles the payload leaves no such byte.
   */
  lemma EncodeDecode(fields: seq<Field>, size: nat, raw: seq<byte>)
    requires Table(fields, size) && Decoding(fields, size, raw).Ok?
    ensures Conforms(fields, Decoding(fields, size, raw).value)
    ensures Encoding(fields, size, Decoding(fields, size, raw).value) == raw
      <==> forall k :: 0 <= k < size && !Covered(fields, k) ==> raw[k] == 0
    ensures (forall k :: 0 <= k < size ==> Covered(fields, k)) ==>
      Encoding(fields, size, Decoding(fields, size, raw).value) == raw
  {
    hide ReadField, Slice, Written, FieldBytes, Admits;
    AcceptedConforms(fields, size, raw);
    var p := Decoding(fields, size, raw).value;
    var again := Encoding(fields, size, p);
    forall k | 0 <= k < size
      ensures again[k] == if Covered(fields, k) then raw[k] else 0
    {
      AgainAt(fields, p, raw, k);
    }
    if forall k :: 0 <= k < size && !Covered(fields, k) ==> raw[k] == 0 {
      assert again == raw;
    }
  }

  lemma AcceptedConforms(fields: seq<Field>, size: nat, raw: seq<byte>)
    requires Table(fields, size) && Decoding(fields, size, raw).Ok?
    ensures var p := Decoding(fields, size, raw).value;
      && Conforms(fields, p)
      && forall i :: 0 <= i < |fields| ==> FieldBytes(fields[i], p[fields[i].name]) == Slice(fields[i], raw)
  {
    hide ReadField, Slice, FieldBytes, Admits, ReadAll;
    var p := Decoding(fields, size, raw).value;
    forall i | 0 <= i < |fields|
      ensures fields[i].name in p && Admits(fields[i].kind, p[fields[i].name])
      ensures FieldBytes(fields[i], p[fields[i].name]) == Slice(fields[i], raw)
    {
      ReadAllField(fields, raw, map[], i);
      FieldBytesRoundTrip(fields[i], Slice(fields[i], raw));
    }
    forall name | name in p ensures Lists(fields, name) {
      ReadAllKeeps(fields, raw, map[], name);
    }
  }

  lemma AgainAt(fields: seq<Field>, p: map<string, Value>, raw: seq<byte>, k: nat)
    requires Table(fields, |raw|) && Conforms(fields, p) && k < |raw|
    requires forall i :: 0 <= i < |fields| ==> FieldBytes(fields[i], p[fields[i].name]) == Slice(fields[i], raw)
    ensures Encoding(fields, |raw|, p)[k] == if Covered(fields, k) then raw[k] else 0
  {
    hide Written, FieldBytes, Admits, TablesUnambiguous, NamesDiffer;
    var again := Encoding(fields, |raw|, p);
    if Covered(fields, k) {
      var i :| 0 <= i < |fields| && fields[i].Covers(k);
      WrittenField(fields, p, Zeros(|raw|), i);
      assert Slice(fields[i], again)[k - fields[i].offset] == Slice(fields[i], raw)[k - fields[i].offset];
    } else {
      WrittenOutside(fields, p, Zeros(|raw|), k);
    }
  }
}
