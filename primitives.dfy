/** Machine-level value types of the C# program: fixed-width integers with the
    wrap-around of unchecked arithmetic, the checked sum used by LINQ, optional
    values for nullable references, and 128-bit identifiers. */
module Primitives {

  datatype Option<+T> = None | Some(value: T)

  const MinInt32: int := -0x8000_0000
  const MaxInt32: int := 0x7FFF_FFFF

  /** C# `short` */
  type Int16 = x: int | -0x8000 <= x <= 0x7FFF
  /** C# `int` */
  type Int32 = x: int | -0x8000_0000 <= x <= 0x7FFF_FFFF
  /** C# `long` */
  type Int64 = x: int | -0x8000_0000_0000_0000 <= x <= 0x7FFF_FFFF_FFFF_FFFF

  predicate InInt32(x: int) {
    MinInt32 <= x <= MaxInt32
  }

  /** The result of `+` on two `int`s in an unchecked context: the exact sum
      reduced modulo 2^32 into the signed range. */
  function Wrap32(x: int): (r: Int32)
    ensures InInt32(x) ==> r == x
    ensures (x - r) % 0x1_0000_0000 == 0
  {
    (x + 0x8000_0000) % 0x1_0000_0000 - 0x8000_0000
  }

  /** Exact sum of a sequence of integers, added from the left. */
  function Sum(xs: seq<int>): int {
    if xs == [] then 0 else Sum(xs[..|xs| - 1]) + xs[|xs| - 1]
  }

  /** `Enumerable.Sum` over `int[]`: adds from the left starting at `acc` in a
      checked context, so the first partial sum that leaves the `int` range
      raises an `OverflowException` (modelled as `None`). */
  function CheckedSumFrom(acc: Int32, xs: seq<Int32>): (r: Option<Int32>)
    ensures r.Some? ==> r.value == acc + Sum(xs)
    ensures r.Some? <==> forall k :: 0 < k <= |xs| ==> InInt32(acc + Sum(xs[..k]))
    decreases |xs|
  {
    if xs == [] then Some(acc)
    else if !InInt32(acc + xs[0]) then
      assert xs[..1] == [xs[0]];
      None
    else
      var r := CheckedSumFrom(acc + xs[0], xs[1..]);
      CheckedSumStep(acc, xs);
      SumCons(xs);
      r
  }

  /** Summing a prefix of `xs` from `acc` equals summing the shorter prefix of
      `xs[1..]` from `acc + xs[0]`. */
  lemma {:induction false} SumPrefixShift(acc: int, xs: seq<int>)
    requires xs != []
    ensures forall k :: 0 < k <= |xs| ==> acc + Sum(xs[..k]) == acc + xs[0] + Sum(xs[1..][..k - 1])
  {
    forall k | 0 < k <= |xs|
      ensures Sum(xs[..k]) == xs[0] + Sum(xs[1..][..k - 1])
    {
      SumCons(xs[..k]);
      assert xs[..k][1..] == xs[1..][..k - 1];
    }
  }

  /** Every partial sum of `xs` from `acc` stays in range exactly when the
      first addition does and every partial sum of the rest does. */
  lemma CheckedSumStep(acc: int, xs: seq<int>)
    requires xs != [] && InInt32(acc + xs[0])
    ensures (forall k :: 0 < k <= |xs| ==> InInt32(acc + Sum(xs[..k])))
        <==> (forall k :: 0 < k <= |xs[1..]| ==> InInt32(acc + xs[0] + Sum(xs[1..][..k])))
  {
    SumPrefixShift(acc, xs);
    if forall k :: 0 < k <= |xs| ==> InInt32(acc + Sum(xs[..k])) {
      forall k | 0 < k <= |xs[1..]|
        ensures InInt32(acc + xs[0] + Sum(xs[1..][..k]))
      {
        assert InInt32(acc + Sum(xs[..k + 1]));
      }
    }
    if forall k :: 0 < k <= |xs[1..]| ==> InInt32(acc + xs[0] + Sum(xs[1..][..k])) {
      forall k | 0 < k <= |xs|
        ensures InInt32(acc + Sum(xs[..k]))
      {
        if k > 1 {
          assert InInt32(acc + xs[0] + Sum(xs[1..][..k - 1]));
        } else {
          assert xs[1..][..0] == [];
        }
      }
    }
  }

  /** Adding from the left and from the right agree. */
  lemma {:induction false} SumCons(xs: seq<int>)
    requires xs != []
    ensures Sum(xs) == xs[0] + Sum(xs[1..])
  {
    if |xs| > 1 {
      var init := xs[..|xs| - 1];
      SumCons(init);
      assert init[1..] == xs[1..][..|xs[1..]| - 1];
    }
  }

  function CheckedSum(xs: seq<Int32>): (r: Option<Int32>)
    ensures r.Some? ==> r.value == Sum(xs)
    ensures r.Some? <==> forall k :: 0 < k <= |xs| ==> InInt32(Sum(xs[..k]))
  {
    CheckedSumFrom(0, xs)
  }

  /** `System.Guid`: a 128-bit value. */
  newtype Guid = x: int | 0 <= x < 0x1_0000_0000_0000_0000_0000_0000_0000_0000

  /** `Guid.Empty`: all 128 bits zero. */
  const EmptyGuid: Guid := 0
}
