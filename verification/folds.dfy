/** The variadic `max!` and `min!` folds: `max!(x)` is `x`, and
    `max!(x, xs..)` is `max(x, max!(xs..))`; `min!` likewise. The argument
    list is a non-empty sequence. */
module Folds {

  function Max(a: int, b: int): int { if a >= b then a else b }

  function Min(a: int, b: int): int { if a <= b then a else b }

  /** `max!(xs..)`: at least every argument and equal to one of them. */
  function MaxOf(xs: seq<int>): (m: int)
    requires |xs| > 0
    ensures forall i :: 0 <= i < |xs| ==> xs[i] <= m
    ensures m in xs
    decreases |xs|
  {
    if |xs| == 1 then xs[0] else Max(xs[0], MaxOf(xs[1..]))
  }

  /** `min!(xs..)`: at most every argument and equal to one of them. */
  function MinOf(xs: seq<int>): (m: int)
    requires |xs| > 0
    ensures forall i :: 0 <= i < |xs| ==> m <= xs[i]
    ensures m in xs
    decreases |xs|
  {
    if |xs| == 1 then xs[0] else Min(xs[0], MinOf(xs[1..]))
  }

  /** Over the same non-empty argument list, `min!` never exceeds `max!`. */
  lemma MinAtMostMax(xs: seq<int>)
    requires |xs| > 0
    ensures MinOf(xs) <= MaxOf(xs)
  {
    assert MinOf(xs) <= xs[0] <= MaxOf(xs);
  }
}
