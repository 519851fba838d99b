/** The arithmetic every spectrum consumer shares: which bin an instance reads,
    how a byte becomes an amplitude, and the mean of a buffer. */
module Spectrum {

  /** One cell of a `Uint8Array`. */
  type Byte = b: int | 0 <= b < 256

  /** `Math.floor((i / count) * len)`, computed exactly: instance `i` of `count`
      reads this bin of a buffer of `len` bins. */
  function BinIndex(i: nat, count: nat, len: nat): (r: nat)
    requires i < count
    ensures len > 0 ==> r < len
    ensures i == 0 ==> r == 0
    ensures r * count <= i * len < (r + 1) * count
  {
    var r := (i * len) / count;
    DivisionBounds(i * len, count);
    assert (r + 1) * count == r * count + count;
    if len > 0 then
      QuotientBelow(r, i, count, len);
      r
    else
      r
  }

  /** The quotient times the divisor falls within one divisor of the dividend. */
  lemma DivisionBounds(p: nat, d: nat)
    requires d > 0
    ensures (p / d) * d <= p < (p / d) * d + d
  {
    assert p == (p / d) * d + p % d;
  }

  /** A quotient of `i * len` by `count`, for `i < count`, is below `len`. */
  lemma QuotientBelow(r: nat, i: nat, count: nat, len: nat)
    requires i < count && len > 0
    requires r * count <= i * len
    ensures r < len
  {
    MultiplyStrict(i, count, len);
    if r >= len {
      MultiplyMonotonic(len, r, count);
      assert false;
    }
  }

  lemma MultiplyStrict(i: nat, count: nat, len: nat)
    requires i < count && len > 0
    ensures i * len < count * len
  {
  }

  /** Later instances never read an earlier bin. */
  lemma BinIndexMonotonic(i: nat, j: nat, count: nat, len: nat)
    requires i <= j < count
    ensures BinIndex(i, count, len) <= BinIndex(j, count, len)
  {
    var a, b := BinIndex(i, count, len), BinIndex(j, count, len);
    assert i * len <= j * len by {
      MultiplyMonotonic(i, j, len);
    }
    if a > b {
      assert (b + 1) * count <= a * count by {
        MultiplyMonotonic(b + 1, a, count);
      }
      assert false;
    }
  }

  lemma MultiplyMonotonic(x: nat, y: nat, k: nat)
    requires x <= y
    ensures x * k <= y * k
  {
  }

  /** A byte scaled by 255, as `frequencyData[k] / 255`. */
  function Amplitude(b: Byte): (r: real)
    ensures 0.0 <= r <= 1.0
    ensures r * 255.0 == b as real
  {
    b as real / 255.0
  }

  /** A louder bin never gives a smaller amplitude, and equal amplitudes mean equal bytes. */
  lemma AmplitudeOrder(a: Byte, b: Byte)
    ensures a <= b <==> Amplitude(a) <= Amplitude(b)
    ensures a == b <==> Amplitude(a) == Amplitude(b)
  {
  }

  /** `Array.from(s).reduce((a, b) => a + b, 0)`, summed from the left. */
  function Sum(s: seq<Byte>): nat
  {
    if s == [] then 0 else Sum(s[..|s| - 1]) + s[|s| - 1]
  }

  lemma {:induction false} SumBound(s: seq<Byte>)
    ensures Sum(s) <= 255 * |s|
  {
    if s != [] {
      SumBound(s[..|s| - 1]);
    }
  }

  lemma {:induction false} SumConstant(n: nat, b: Byte)
    ensures Sum(seq(n, _ => b)) == n * b
  {
    if n > 0 {
      var s := seq(n, _ => b);
      assert s[..n - 1] == seq(n - 1, _ => b);
      SumConstant(n - 1, b);
    }
  }

  /** The mean magnitude of a non-empty buffer. */
  function Average(s: seq<Byte>): (r: real)
    requires |s| > 0
    ensures 0.0 <= r <= 255.0
  {
    SumBound(s);
    Sum(s) as real / |s| as real
  }

  /** The mean of a buffer whose every bin holds `b` is `b`. */
  lemma AverageConstant(n: nat, b: Byte)
    requires n > 0
    ensures Average(seq(n, _ => b)) == b as real
  {
    SumConstant(n, b);
  }
}
