/** What a caller may hand to a generated `calculate`: a series of reals or
    integers (a slice or a `Vec`), or a five-tuple of price series. Each
    type offers `Length` and the price projections (`Open`, `Low`, `High`,
    `Close`, `Volume`) it implements. */
module CallerInputs {
  import opened TaTypes
  import opened Folds
  import IP = InputParams

  /** The price projections a generated bound can ask for, in the order a
      generated bound lists them. */
  datatype Capability = Open | Low | High | Close | Volume | OpenInterest

  /** The input flag that asks for each capability. */
  function CapabilityFlag(c: Capability): bv32
  {
    match c
    case Open => IP.OPEN
    case Low => IP.LOW
    case High => IP.HIGH
    case Close => IP.CLOSE
    case Volume => IP.VOLUME
    case OpenInterest => IP.OPEN_INTEREST
  }

  datatype CallerInput =
    | RealSeries(reals: seq<real>)
    | IntegerSeries(ints: seq<int>)
    /** `(&[f64], &[f64], &[f64], &[f64], &[f64])`: `.0` is open, `.1` low,
        `.2` high, `.3` close and `.4` volume. */
    | PriceTuple(c0: seq<real>, c1: seq<real>, c2: seq<real>, c3: seq<real>, c4: seq<real>)

  /** The component lengths of a caller input, in field order. */
  function ComponentLengths(x: CallerInput): (ls: seq<int>)
    ensures |ls| > 0
  {
    match x
    case RealSeries(xs) => [|xs|]
    case IntegerSeries(ns) => [|ns|]
    case PriceTuple(c0, c1, c2, c3, c4) => [|c0|, |c1|, |c2|, |c3|, |c4|]
  }

  /** `Length::length`: the `len()` of a slice or `Vec`, and the `max!` of
      the five component lengths of a tuple. */
  function Length(x: CallerInput): (n: nat)
    ensures forall i :: 0 <= i < |ComponentLengths(x)| ==> ComponentLengths(x)[i] <= n
    ensures n in ComponentLengths(x)
  {
    var m := MaxOf(ComponentLengths(x));
    assert m >= ComponentLengths(x)[0] >= 0;
    m
  }

  /** The trait projections: `Some(series)` when the type implements the
      capability, `None` when it does not. */
  function Projection(x: CallerInput, c: Capability): Option<seq<real>>
  {
    match x
    case PriceTuple(c0, c1, c2, c3, c4) =>
      (match c
       case Open => Some(c0)
       case Low => Some(c1)
       case High => Some(c2)
       case Close => Some(c3)
       case Volume => Some(c4)
       case OpenInterest => None)
    case _ => None
  }

  /** Whether `x`'s type implements every capability of a generated bound. */
  predicate Satisfies(x: CallerInput, bound: seq<Capability>)
  {
    forall i :: 0 <= i < |bound| ==> Projection(x, bound[i]).Some?
  }

  /** A series' length is its element count, and a tuple's length is the
      longest of its five components: at least each component's length and
      equal to one of them. */
  lemma LengthIsLongestComponent(x: CallerInput)
    ensures x.RealSeries? ==> Length(x) == |x.reals|
    ensures x.IntegerSeries? ==> Length(x) == |x.ints|
    ensures x.PriceTuple? ==>
      && |x.c0| <= Length(x) && |x.c1| <= Length(x) && |x.c2| <= Length(x)
      && |x.c3| <= Length(x) && |x.c4| <= Length(x)
      && Length(x) in {|x.c0|, |x.c1|, |x.c2|, |x.c3|, |x.c4|}
  {
    var ls := ComponentLengths(x);
    if x.PriceTuple? {
      assert ls[0] == |x.c0| && ls[1] == |x.c1| && ls[2] == |x.c2|;
      assert ls[3] == |x.c3| && ls[4] == |x.c4|;
    }
  }

  /** Every projection of a tuple is one of its components, no longer than
      the tuple's `Length`. */
  lemma ProjectionWithinLength(x: CallerInput, c: Capability)
    requires Projection(x, c).Some?
    ensures |Projection(x, c).value| <= Length(x)
  {
    LengthIsLongestComponent(x);
  }

  /** The five-tuple implements no `OpenInterest`, so no caller input
      satisfies a bound that asks for it; a bound without it is satisfied
      by every tuple and, when non-empty, by no series. */
  lemma BoundSatisfiedIffNoOpenInterest(x: CallerInput, bound: seq<Capability>)
    ensures x.PriceTuple? ==> (Satisfies(x, bound) <==> OpenInterest !in bound)
    ensures !x.PriceTuple? ==> (Satisfies(x, bound) <==> |bound| == 0)
  {
    if x.PriceTuple? && OpenInterest in bound {
      var i :| 0 <= i < |bound| && bound[i] == OpenInterest;
      assert Projection(x, bound[i]).None?;
    }
    if !x.PriceTuple? && |bound| > 0 {
      assert Projection(x, bound[0]).None?;
    }
  }
}
