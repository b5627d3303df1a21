/** Error codes, results and byte strings shared by every component. */
module Common {

  /** The rejection codes of the interface, as carried by an ICD error or a feedback payload. */
  datatype Code =
    | Schema | Version | Hash | Authorization | Model | ControlOwner | Range | State
    | StaleSession | Duplicate | OutOfOrder | Late | Expired | BufferFull | Fragmentation
    | Crc | Unsupported | TargetMissing | Timeout | BusinessFailed | Safety | Resource
    | ClockUnsync | Capacity

  datatype Option<+T> = None | Some(value: T)

  datatype Result<+T> = Ok(value: T) | Err(code: Code) {
    predicate IsFailure() { Err? }

    function PropagateFailure<U>(): Result<U>
      requires Err?
    {
      Err(code)
    }

    function Extract(): T
      requires Ok?
    {
      value
    }
  }

  type byte = x: int | 0 <= x < 0x100
  type u16 = x: int | 0 <= x < 0x1_0000
  type u32 = x: int | 0 <= x < 0x1_0000_0000

  type pos = x: int | 0 < x witness 1

  const U32_MAX: nat := 0xffff_ffff
  const U64_MAX: nat := 0xffff_ffff_ffff_ffff
  const NS_PER_MS: nat := 1_000_000

  function Min(a: int, b: int): int { if a <= b then a else b }

  function Max(a: int, b: int): int { if a >= b then a else b }

  /** Number of pieces of the given size that cover `total` bytes. */
  function CeilDiv(total: nat, size: nat): nat
    requires size > 0
  {
    (total + size - 1) / size
  }

  /** Concatenation of a list of byte strings. */
  function Join(parts: seq<seq<byte>>): seq<byte>
  {
    if parts == [] then [] else parts[0] + Join(parts[1..])
  }

  function Zeros(n: nat): (r: seq<byte>)
  {
    seq(n, _ => 0)
  }

  predicate NoDup<T(==)>(s: seq<T>)
  {
    forall i, j :: 0 <= i < j < |s| ==> s[i] != s[j]
  }

  lemma {:induction false} JoinAppend(a: seq<seq<byte>>, b: seq<seq<byte>>)
    ensures Join(a + b) == Join(a) + Join(b)
  {
    if a == [] {
      assert a + b == b;
    } else {
      JoinAppend(a[1..], b);
      assert (a + b)[1..] == a[1..] + b;
    }
  }

  // ---------------------------------------------------------------- lengths of decimal integers

  /** Canonical length of a natural number. */
  function DecimalLength(n: nat): nat
  {
    if n < 10 then 1 else 1 + DecimalLength(n / 10)
  }

  function Pow10(k: nat): nat
  {
    if k == 0 then 1 else 10 * Pow10(k - 1)
  }

  lemma {:induction false} DecimalBound(n: nat, k: nat)
    requires 0 < k && n < Pow10(k)
    ensures DecimalLength(n) <= k
  {
    assert Pow10(1) == 10 * Pow10(0);
    if n >= 10 {
      DecimalBound(n / 10, k - 1);
    }
  }

  lemma DecimalShort(n: nat)
    requires n <= U32_MAX
    ensures 1 <= DecimalLength(n) <= 10
  {
    DecimalBound(n, 10);
  }

  /** A larger number is never shorter. */
  lemma {:induction false} DecimalMonotone(a: nat, b: nat)
    requires a <= b
    ensures DecimalLength(a) <= DecimalLength(b)
  {
    if a >= 10 {
      DecimalMonotone(a / 10, b / 10);
    }
  }
}
