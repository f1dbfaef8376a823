/**
 C's float-to-integer conversion and the fixed-point encoding of floats on the wire
 (`include/krft/bin_array.h`), read over exact reals.
 */
module FixedPoint {
  import opened Reals

  /** C converts a float to an integer by dropping the fraction, i.e. toward zero. */
  function Trunc(r: real): int {
    if r >= 0.0 then r.Floor else -((-r).Floor)
  }

  /** `int32_t idata = data * FLOAT_SCALE` */
  function ToFixed(x: real): int {
    Trunc(x * 10000.0)
  }

  /** `ires / (float)FLOAT_SCALE` */
  function FromFixed(n: int): real {
    n as real / 10000.0
  }

  /** What a float has become after one trip over the wire. */
  function Quantise(x: real): real {
    FromFixed(ToFixed(x))
  }

  lemma TruncBounds(r: real)
    ensures r >= 0.0 ==> 0 <= Trunc(r) && Trunc(r) as real <= r < Trunc(r) as real + 1.0
    ensures r <= 0.0 ==> Trunc(r) <= 0 && Trunc(r) as real - 1.0 < r <= Trunc(r) as real
  {
  }

  lemma TruncOfInt(n: int)
    ensures Trunc(n as real) == n
  {
  }

  /** The wire counts ten-thousandths, dropping what is less. */
  lemma FixedCountsTenThousandths(x: real)
    ensures x >= 0.0 ==> ToFixed(x) as real <= 10000.0 * x < ToFixed(x) as real + 1.0
    ensures x <= 0.0 ==> ToFixed(x) as real - 1.0 < 10000.0 * x <= ToFixed(x) as real
    ensures 10000.0 * FromFixed(ToFixed(x)) == ToFixed(x) as real
  {
    TruncBounds(x * 10000.0);
  }

  /** Decoding an encoded float loses less than one ten-thousandth and never grows the magnitude. */
  lemma QuantiseIsClose(x: real)
    ensures Abs(x - Quantise(x)) < 0.0001
    ensures Abs(Quantise(x)) <= Abs(x)
    ensures x >= 0.0 ==> Quantise(x) >= 0.0
    ensures x <= 0.0 ==> Quantise(x) <= 0.0
  {
    TruncBounds(x * 10000.0);
  }

  /** The encoding keeps order, weakly. */
  lemma QuantiseIsMonotone(x: real, y: real)
    requires x <= y
    ensures Quantise(x) <= Quantise(y)
  {
    TruncBounds(x * 10000.0);
    TruncBounds(y * 10000.0);
    assert ToFixed(x) <= ToFixed(y);
  }

  /** Encoding a decoded number gives the same word back ... */
  lemma FixedRoundTrip(n: int)
    ensures ToFixed(FromFixed(n)) == n
  {
    assert FromFixed(n) * 10000.0 == n as real;
    TruncOfInt(n);
  }

  function Relayed(x: real, hops: nat): real {
    if hops == 0 then x else Quantise(Relayed(x, hops - 1))
  }

  /** ... so a value relayed any positive number of times does not drift. */
  lemma {:induction false} RelayDoesNotDrift(x: real, hops: nat)
    requires hops > 0
    ensures Relayed(x, hops) == Quantise(x)
  {
    if hops == 1 {
      assert Relayed(x, 0) == x;
    } else {
      RelayDoesNotDrift(x, hops - 1);
      FixedRoundTrip(ToFixed(x));
    }
  }
}
