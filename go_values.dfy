/**
 * The fixed-width Go values the resizer computes with: uint64 and int64
 * integers with Go's wrap-around and conversions, and float64 as far as
 * the comparison operators see it (rounding is not modelled, NaN is).
 */
module GoValues {

  const TWO_TO_THE_63: int := 0x8000_0000_0000_0000
  const TWO_TO_THE_64: int := 0x1_0000_0000_0000_0000

  type Uint64 = x: int | 0 <= x < TWO_TO_THE_64
  type Int64 = x: int | -TWO_TO_THE_63 <= x < TWO_TO_THE_63

  /** Go's `a + b` on uint64: the sum modulo 2^64. */
  function AddUint64(a: Uint64, b: Uint64): (r: Uint64)
    ensures (r == a + b) <==> a + b < TWO_TO_THE_64
    ensures r < a <==> a + b >= TWO_TO_THE_64
    ensures (a + b - r) % TWO_TO_THE_64 == 0
  {
    if a + b < TWO_TO_THE_64 then a + b else a + b - TWO_TO_THE_64
  }

  /** Go's `int64(u)`: the same 64 bits read as two's complement. */
  function Int64Of(u: Uint64): (r: Int64)
    ensures (r == u) <==> u < TWO_TO_THE_63
    ensures r < 0 <==> u >= TWO_TO_THE_63
    ensures Uint64Of(r) == u
  {
    if u < TWO_TO_THE_63 then u else u - TWO_TO_THE_64
  }

  /** Go's `uint64(i)`: the same 64 bits read as unsigned. */
  function Uint64Of(i: Int64): (r: Uint64)
    ensures (r == i) <==> i >= 0
    ensures i < 0 <==> r >= TWO_TO_THE_63
  {
    if i >= 0 then i else i + TWO_TO_THE_64
  }

  /** A float64 seen through comparisons: a finite value, an infinity, or NaN. */
  datatype Float = Finite(r: real) | PosInf | NegInf | NaN

  /** Go's `a < b` on float64: IEEE 754 ordering, false whenever either side is NaN. */
  function Less(a: Float, b: Float): (r: bool)
    ensures a.NaN? || b.NaN? ==> !r
    ensures r ==> a != b
    ensures a.Finite? && b.Finite? ==> (r <==> a.r < b.r)
    // the infinities sit below and above every other non-NaN value
    ensures b.PosInf? ==> (r <==> !a.NaN? && !a.PosInf?)
    ensures a.NegInf? ==> (r <==> !b.NaN? && !b.NegInf?)
  {
    match a
    case NaN => false
    case PosInf => false
    case NegInf => !b.NaN? && !b.NegInf?
    case Finite(x) => b.PosInf? || (b.Finite? && x < b.r)
  }

  /** Go's `a > b` on float64. */
  function Greater(a: Float, b: Float): (r: bool)
    ensures a.NaN? || b.NaN? ==> !r
    ensures r ==> a != b
    ensures a.Finite? && b.Finite? ==> (r <==> a.r > b.r)
    // off NaN, exactly one of a < b, a == b, a > b holds
    ensures !a.NaN? && !b.NaN? ==> (r <==> !Less(a, b) && a != b)
  {
    Less(b, a)
  }

  /** Go's `a >= b` on float64: false whenever either side is NaN. */
  function AtLeast(a: Float, b: Float): (r: bool)
    ensures r <==> Greater(a, b) || (a == b && !a.NaN?)
    ensures a.Finite? && b.Finite? ==> (r <==> a.r >= b.r)
  {
    !a.NaN? && !b.NaN? && !Less(a, b)
  }

  /** NaN is unordered: every comparison with it is false. */
  lemma NaNUnordered(x: Float)
    ensures !Less(x, NaN) && !Less(NaN, x) && !Greater(x, NaN) && !Greater(NaN, x)
    ensures !AtLeast(x, NaN) && !AtLeast(NaN, x)
  {
  }

  /** On finite values the Go comparisons are the mathematical ones. */
  lemma FiniteCompare(x: real, y: real)
    ensures Less(Finite(x), Finite(y)) <==> x < y
    ensures Greater(Finite(x), Finite(y)) <==> x > y
    ensures AtLeast(Finite(x), Finite(y)) <==> x >= y
  {
  }
}
