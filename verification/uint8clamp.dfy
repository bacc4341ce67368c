/**
 Storing a number into a clamped byte array (a canvas pixel buffer): the value
 goes through ToUint8Clamp, section 7.1.12 of ECMA-262. NaN becomes 0, values
 are clamped to [0, 255], and the rest are rounded to the nearest integer with
 ties going to the even neighbour. Numbers are modelled as exact reals or NaN.
 */
module Uint8Clamp {

  /** One channel value held by a clamped byte array. */
  type Byte = x: int | 0 <= x <= 255

  /** A script number as far as this model needs it: NaN or a finite value. */
  datatype Number = NaN | Finite(value: real)

  /** `x` lies exactly halfway between two consecutive integers. */
  predicate IsTie(x: real)
  {
    x - x.Floor as real == 0.5
  }

  /** ToUint8Clamp: NaN to 0, clamp to [0, 255], round half to even. */
  function ToUint8Clamp(n: Number): Byte
  {
    match n
    case NaN => 0
    case Finite(x) =>
      if x <= 0.0 then 0
      else if x >= 255.0 then 255
      else
        var f := x.Floor;
        if f as real + 0.5 < x then f + 1
        else if x < f as real + 0.5 then f
        else if f % 2 == 1 then f + 1
        else f
  }

  /** What ToUint8Clamp stores: 0 for NaN and for values at most 0, 255 for
      values at least 255, and otherwise the nearest integer, the even one on a tie. */
  lemma StoreSpec(n: Number)
    ensures var r := ToUint8Clamp(n);
            && (n.NaN? ==> r == 0)
            && (n.Finite? && n.value <= 0.0 ==> r == 0)
            && (n.Finite? && n.value >= 255.0 ==> r == 255)
            && (n.Finite? && 0.0 <= n.value <= 255.0 ==> -0.5 <= r as real - n.value <= 0.5)
            && (n.Finite? && 0.0 < n.value < 255.0 && IsTie(n.value) ==> r % 2 == 0)
  {
  }

  /** Storing a value that is already a byte leaves it unchanged. */
  lemma StoreByte(b: Byte)
    ensures ToUint8Clamp(Finite(b as real)) == b
  {
    assert (b as real).Floor == b;
  }

  /** The store is monotone: a larger value never stores a smaller byte. */
  lemma StoreMonotone(x: real, y: real)
    requires x <= y
    ensures ToUint8Clamp(Finite(x)) <= ToUint8Clamp(Finite(y))
  {
  }

  /** Math.max(0, Math.min(255, x)): x clamped to [0, 255]. */
  function Clamp(x: real): (r: real)
    ensures 0.0 <= r <= 255.0
    ensures 0.0 <= x <= 255.0 ==> r == x
    ensures x < 0.0 ==> r == 0.0
    ensures x > 255.0 ==> r == 255.0
  {
    if x < 0.0 then 0.0 else if x > 255.0 then 255.0 else x
  }

  /** Clamping a value to [0, 255] before the store stores the same byte as
      storing the value itself. */
  lemma ClampBeforeStore(x: real)
    ensures ToUint8Clamp(Finite(Clamp(x))) == ToUint8Clamp(Finite(x))
  {
  }

  /** The contract of ToUint8Clamp pins its in-range result down: the only byte
      within one half of x, taking the even one on a tie, is what is stored. */
  lemma StoreIsNearest(x: real, b: Byte)
    requires 0.0 <= x <= 255.0
    requires -0.5 <= b as real - x <= 0.5
    requires IsTie(x) ==> b % 2 == 0
    ensures ToUint8Clamp(Finite(x)) == b
  {
  }
}
