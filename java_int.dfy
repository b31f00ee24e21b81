/**
 * Java's 32-bit `int` and 64-bit `long` arithmetic, written out over Dafny's
 * unbounded integers.  Multiplication and addition on `int` wrap modulo 2^32,
 * and `IntStream.sum()` is a left fold of wrapping additions starting at 0.
 */
module JavaInt {

  const TWO_32: int := 0x1_0000_0000

  /** The values of a Java `int`. */
  type Int32 = x: int | -0x8000_0000 <= x < 0x8000_0000

  /** The values of a Java `long`. */
  type Int64 = x: int | -0x8000_0000_0000_0000 <= x < 0x8000_0000_0000_0000

  predicate InRange(x: int) {
    -0x8000_0000 <= x < 0x8000_0000
  }

  /** The `int` that the JVM keeps of the mathematical value `x`: the unique
      value in range that is congruent to `x` modulo 2^32. */
  function Wrap(x: int): (r: Int32)
    ensures InRange(x) ==> r == x
  {
    var m := x % TWO_32;
    if m < 0x8000_0000 then m else m - TWO_32
  }

  /** `Wrap(x)` is congruent to `x` modulo 2^32. */
  lemma WrapIsCongruent(x: int)
    ensures (x - Wrap(x)) % TWO_32 == 0
  {
    var m := x % TWO_32;
    assert x == (x / TWO_32) * TWO_32 + m;
    if m < 0x8000_0000 {
      assert x - Wrap(x) == (x / TWO_32) * TWO_32;
    } else {
      assert x - Wrap(x) == (x / TWO_32 + 1) * TWO_32;
    }
  }

  /** Two values that are congruent modulo 2^32 wrap to the same `int`. */
  lemma WrapCongruent(x: int, y: int)
    requires (x - y) % TWO_32 == 0
    ensures Wrap(x) == Wrap(y)
  {
    assert x % TWO_32 == y % TWO_32 by {
      var q := (x - y) / TWO_32;
      assert x == y + q * TWO_32;
      ModShift(y, q);
    }
  }

  lemma ModShift(y: int, q: int)
    ensures (y + q * TWO_32) % TWO_32 == y % TWO_32
  {
  }

  /** Java `a + b` on `int`. */
  function Add(a: Int32, b: Int32): Int32 {
    Wrap(a + b)
  }

  /** Java `a * b` on `int`. */
  function Mul(a: Int32, b: Int32): Int32 {
    Wrap(a * b)
  }

  /** Wrapping after every addition is the same as wrapping once at the end. */
  lemma AddOfWrapped(x: int, y: int)
    ensures Add(Wrap(x), Wrap(y)) == Wrap(x + y)
  {
    var a, b := Wrap(x), Wrap(y);
    WrapIsCongruent(x);
    WrapIsCongruent(y);
    assert ((a + b) - (x + y)) % TWO_32 == 0 by {
      var p, q := (x - a) / TWO_32, (y - b) / TWO_32;
      assert x - a == p * TWO_32 && y - b == q * TWO_32;
      assert (x + y) - (a + b) == (p + q) * TWO_32;
    }
    WrapCongruent(a + b, x + y);
  }

  /** `IntStream.sum()`: 0 for no values, otherwise the wrapped sum of the
      first values plus the last one. */
  function Sum(xs: seq<Int32>): Int32 {
    if xs == [] then 0 else Add(Sum(xs[..|xs| - 1]), xs[|xs| - 1])
  }

  /** The mathematical sum, without wrap-around. */
  function ExactSum(xs: seq<int>): int {
    if xs == [] then 0 else ExactSum(xs[..|xs| - 1]) + xs[|xs| - 1]
  }

  /** A sum over wrapped values is the wrapped mathematical sum of the
      unwrapped ones: overflow in a product or in a partial sum is harmless
      exactly when the final sum is in range. */
  lemma {:induction false} SumOfWrapped(xs: seq<Int32>, ys: seq<int>)
    requires |xs| == |ys|
    requires forall i :: 0 <= i < |xs| ==> xs[i] == Wrap(ys[i])
    ensures Sum(xs) == Wrap(ExactSum(ys))
  {
    if xs != [] {
      var n := |xs| - 1;
      SumOfWrapped(xs[..n], ys[..n]);
      AddOfWrapped(ExactSum(ys[..n]), ys[n]);
    }
  }

  /** Appending one value adds it to the running total. */
  lemma SumAppend(xs: seq<Int32>, x: Int32)
    ensures Sum(xs + [x]) == Add(Sum(xs), x)
  {
    assert (xs + [x])[..|xs|] == xs;
  }

  /** A sum of non-negative values that does not overflow is non-negative. */
  lemma {:induction false} ExactSumNonNegative(ys: seq<int>)
    requires forall i :: 0 <= i < |ys| ==> ys[i] >= 0
    ensures ExactSum(ys) >= 0
  {
    if ys != [] {
      ExactSumNonNegative(ys[..|ys| - 1]);
    }
  }
}
