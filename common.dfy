/*
 * Definitions shared by every contract model: option and result wrappers,
 * the account type, Rust's integer semantics (truncating division,
 * saturating subtraction, fixed-width casts), ledger time constants and
 * the UTF-8 byte length that a contract `String`'s `len()` reports.
 */
module Common {

  datatype Option<T> = None | Some(value: T)

  /** A contract call either returns a value or fails with an error; a failed
      call (an error return or a panic) leaves contract storage unchanged. */
  datatype Result<T, E> = Ok(value: T) | Err(error: E)

  /** Accounts (Soroban `Address`) are compared only for equality. */
  type Address = nat

  const SECONDS_PER_DAY: nat := 86400
  const U32_MAX: nat := 0xFFFF_FFFF
  const U64_MAX: nat := 0xFFFF_FFFF_FFFF_FFFF
  const I128_MAX: nat := 0x7FFF_FFFF_FFFF_FFFF_FFFF_FFFF_FFFF_FFFF

  function Abs(x: int): nat { if x < 0 then -x else x }

  function Min(a: int, b: int): (m: int)
    ensures m <= a && m <= b && (m == a || m == b)
  {
    if a <= b then a else b
  }

  function Max(a: int, b: int): (m: int)
    ensures m >= a && m >= b && (m == a || m == b)
  {
    if a >= b then a else b
  }

  lemma DivNonNegative(x: nat, y: nat)
    requires y > 0
    ensures x / y >= 0
  {
  }

  /** Rust's `/` on signed integers: the quotient is truncated toward zero,
      so the remainder takes the sign of the dividend (Dafny's own `/` is
      Euclidean and differs for negative operands). */
  function Quot(a: int, b: int): (q: int)
    requires b != 0
    ensures Abs(q) == Abs(a) / Abs(b)
    ensures (a >= 0) == (b > 0) ==> q >= 0
    ensures (a >= 0) != (b > 0) ==> q <= 0
  {
    var x, y := Abs(a), Abs(b);
    DivNonNegative(x, y);
    if (a >= 0) == (b > 0) then x / y else -(x / y)
  }

  lemma QuotOfNonNegative(a: int, b: int)
    requires a >= 0 && b > 0
    ensures Quot(a, b) == a / b
  {
  }

  /** `u64::saturating_sub`: the difference, or 0 when it would be negative. */
  function SatSub(a: nat, b: nat): (r: nat)
    ensures r == 0 <==> a <= b
    ensures a > b ==> r + b == a
  {
    if a > b then a - b else 0
  }

  /** The `as i32` cast of a 64-bit value: two's-complement wrap-around. */
  function WrapI32(x: int): (r: int)
    ensures -0x8000_0000 <= r < 0x8000_0000
    ensures -0x8000_0000 <= x < 0x8000_0000 ==> r == x
  {
    ((x + 0x8000_0000) % 0x1_0000_0000) - 0x8000_0000
  }

  lemma MulComm3(a: nat, b: nat, c: nat)
    ensures a * b * c == (a * c) * b
  {
  }

  lemma MulMonotone(x: nat, y: nat, k: nat)
    requires x <= y
    ensures x * k <= y * k && k * x <= k * y
  {
  }

  lemma MulCancel(x: nat, y: nat, k: nat)
    requires k > 0 && x * k <= y * k
    ensures x <= y
  {
  }

  /** Division by a positive number is monotone. */
  lemma DivMonotone(a: nat, b: nat, d: nat)
    requires a <= b && d > 0
    ensures a / d <= b / d
  {
    assert (a / d) * d <= a;
    assert b < (b / d + 1) * d;
    MulCancelStrict(a / d, b / d + 1, d);
  }

  /** Dividing a multiple of d by d gives the factor back. */
  lemma DivOfMultiple(c: nat, d: nat)
    requires d > 0
    ensures (c * d) / d == c
  {
    var q := (c * d) / d;
    assert q * d <= c * d < (q + 1) * d;
    MulCancel(q, c, d);
    MulCancelStrict(c, q + 1, d);
  }

  lemma MulCancelStrict(x: nat, y: nat, k: nat)
    requires k > 0 && x * k < y * k
    ensures x < y
  {
  }

  /** A fraction r / t of at most one, in whole percent, is at most 100. */
  lemma PercentAtMost100(r: nat, t: nat)
    requires 0 < t
    ensures r <= t ==> r * 100 / t <= 100
  {
    if r > t {
      return;
    }
    var q := r * 100 / t;
    assert q * t <= r * 100;
    MulMonotone(r, t, 100);
    assert q * t <= 100 * t;
    MulCancel(q, 100, t);
  }

  /** No element occurs twice. */
  predicate NoDuplicates<T(==)>(s: seq<T>)
  {
    forall i, j :: 0 <= i < j < |s| ==> s[i] != s[j]
  }

  /** The sum of the values of a finite map (a ledger's total). */
  ghost function MapSum<K(!new)>(m: map<K, int>): int
    decreases |m.Keys|
  {
    if m.Keys == {} then 0
    else
      var k :| k in m.Keys;
      assert (m - {k}).Keys == m.Keys - {k};
      m[k] + MapSum(m - {k})
  }

  /** The sum does not depend on which key is taken out first. */
  lemma {:induction false} MapSumRemove<K(!new)>(m: map<K, int>, k: K)
    requires k in m
    ensures MapSum(m) == m[k] + MapSum(m - {k})
    decreases |m.Keys|
  {
    var j :| j in m.Keys && MapSum(m) == m[j] + MapSum(m - {j});
    if j != k {
      assert (m - {j}).Keys == m.Keys - {j};
      assert (m - {k}).Keys == m.Keys - {k};
      MapSumRemove(m - {j}, k);
      MapSumRemove(m - {k}, j);
      assert m - {j} - {k} == m - {k} - {j};
    }
  }

  /** Overwriting one entry changes the sum by the difference. */
  lemma MapSumUpdate<K(!new)>(m: map<K, int>, k: K, v: int)
    ensures MapSum(m[k := v]) == MapSum(m) - (if k in m then m[k] else 0) + v
  {
    MapSumRemove(m[k := v], k);
    assert m[k := v] - {k} == m - {k};
    if k in m {
      MapSumRemove(m, k);
    } else {
      assert m - {k} == m;
    }
  }

  /** Deleting one entry lowers the sum by its value. */
  lemma MapSumDelete<K(!new)>(m: map<K, int>, k: K)
    ensures MapSum(m - {k}) == MapSum(m) - (if k in m then m[k] else 0)
  {
    if k in m {
      MapSumRemove(m, k);
    } else {
      assert m - {k} == m;
    }
  }

  /** With no negative entry, every entry is at most the sum. */
  lemma {:induction false} MapSumBoundsEntry<K(!new)>(m: map<K, int>, k: K)
    requires forall j :: j in m ==> m[j] >= 0
    ensures MapSum(m) >= 0
    ensures k in m ==> m[k] <= MapSum(m)
    decreases |m.Keys|
  {
    if m.Keys != {} {
      var j :| j in m.Keys && MapSum(m) == m[j] + MapSum(m - {j});
      assert (m - {j}).Keys == m.Keys - {j};
      MapSumBoundsEntry(m - {j}, k);
      if k in m {
        MapSumRemove(m, k);
        assert (m - {k}).Keys == m.Keys - {k};
        MapSumBoundsEntry(m - {k}, k);
      }
    }
  }

  /** The number of bytes a character takes in UTF-8, the encoding of a
      contract `String`. */
  function Utf8Width(c: char): (w: nat)
    ensures 1 <= w <= 4
    ensures w == 1 <==> (c as int) < 0x80
  {
    if (c as int) < 0x80 then 1
    else if (c as int) < 0x800 then 2
    else if (c as int) < 0x10000 then 3
    else 4
  }

  /** The length of a `String` as `len()` reports it: its size in bytes. */
  function ByteLength(s: string): (n: nat)
    ensures |s| <= n <= 4 * |s|
    ensures n == 0 <==> |s| == 0
  {
    if |s| == 0 then 0 else ByteLength(s[..|s| - 1]) + Utf8Width(s[|s| - 1])
  }

  /** A text of `k` copies of a two-byte character is `2·k` bytes long. */
  lemma {:induction false} ByteLengthOfTwoByteText(k: nat)
    ensures ByteLength(seq(k, _ => '\U{e9}')) == 2 * k
  {
    if k > 0 {
      var s := seq(k, _ => '\U{e9}');
      assert s[..k - 1] == seq(k - 1, _ => '\U{e9}');
      ByteLengthOfTwoByteText(k - 1);
    }
  }
}
