/** The `calculate` method the build script generates for every function,
    as it runs: look the function up, allocate its call context, bind the
    struct's optional parameters and the caller's inputs, size and bind one
    output buffer per output, run the function over the caller's series and
    hand back the elements produced. The context is freed on every path. */
module GeneratedCalculate {
  import opened TaTypes
  import opened Folds
  import opened Registry
  import opened FuncInfos
  import opened CallerInputs
  import opened ParamHolders
  import FuncHandles
  import Generator
  import IP = InputParams
  import OI = OptInputParams
  import OP = OutputParams

  /** `Box<dyn Error>`: an error of the crate, or the message of a size
      that could not be computed. */
  datatype CalcError = Native(error: TaError) | Message(text: string)

  datatype Outcome<T> = Done(value: T) | Failed(error: CalcError)

  const REQUIRED_SIZE_ERROR := "Failed to get required size"

  // ---------------------------------------------------------------------
  // What the caller hands in.

  /** The descriptor lists every parameter, input and output at the index
      of its own slot, as a descriptor read from the native record does. */
  predicate PositionsAreIndices(info: FuncInfo)
  {
    && (forall i :: 0 <= i < |info.params| ==> info.params[i].position == i)
    && (forall i :: 0 <= i < |info.inputs| ==> info.inputs[i].position == i)
    && (forall j :: 0 <= j < |info.outputs| ==> info.outputs[j].position == j)
  }

  /** The struct member holding a setting has the parameter's Rust type. */
  predicate SettingFits(p: OI.OptInput, v: OptInputParam)
  {
    (p.kind == OI.Integer) == v.IntegerParam?
  }

  /** The caller's argument has the type the generated signature asks for. */
  predicate Accepts(input: IP.Input, x: CallerInput)
  {
    match input.kind
    case Real => x.RealSeries?
    case Integer => x.IntegerSeries?
    case Price => Satisfies(x, Generator.PriceBound(input.flags))
  }

  /** The arguments of a call of the generated `calculate`: one per input
      (at least one, and no more than there are generic letters), each of
      its input's type, and no empty series among those bound for it. */
  predicate ArgsFit(info: FuncInfo, args: seq<CallerInput>)
  {
    && 1 <= |args| == |info.inputs| <= Generator.LETTER_COUNT
    && (forall i :: 0 <= i < |args| ==> Accepts(info.inputs[i], args[i]))
    && (forall i :: 0 <= i < |args| ==> ReadLength(info.inputs[i], args[i]) >= 1)
  }

  /** What a call of the generated `calculate` needs to compile and to
      compute its invoke range: a setting of the member's type for every
      optional parameter, and arguments that fit. */
  predicate CallableWith(info: FuncInfo, settings: seq<OptInputParam>, args: seq<CallerInput>)
  {
    && PositionsAreIndices(info)
    && |settings| == |info.params|
    && (forall i :: 0 <= i < |settings| ==> SettingFits(info.params[i], settings[i]))
    && ArgsFit(info, args)
  }

  // ---------------------------------------------------------------------
  // What the generated code binds.

  function ComponentValue(x: CallerInput, arg: Generator.ComponentArg): Option<seq<real>>
  {
    match arg
    case Accessor(_, c) => Projection(x, c)
    case NullPointer => None
  }

  /** A price component as bound: the argument's projection when the
      input's flags ask for it, a null pointer otherwise. */
  function FlaggedComponent(x: CallerInput, flags: bv32, c: Capability): Option<seq<real>>
  {
    if Generator.Has(flags, c) then Projection(x, c) else None
  }

  /** The `InputParam` the generated code binds for an input: the slice for
      a series, and for a price input an `Ohlc` holding the projections its
      flags ask for and null pointers elsewhere. */
  function InputParamOf(input: IP.Input, x: CallerInput): InputParam
    requires Accepts(input, x)
  {
    match input.kind
    case Real => RealInput(x.reals)
    case Integer => IntegerInput(x.ints)
    case Price =>
      OhlcInput(Ohlc(FlaggedComponent(x, input.flags, Open), FlaggedComponent(x, input.flags, Low),
                     FlaggedComponent(x, input.flags, High), FlaggedComponent(x, input.flags, Close),
                     FlaggedComponent(x, input.flags, Volume), FlaggedComponent(x, input.flags, OpenInterest)))
  }

  /** The parameter bound for an input is what the generated expression
      denotes: a slice pointer binds the series, and each component of a
      generated `Ohlc` binds its accessor's projection or a null pointer. */
  lemma InputParamIsGeneratedValue(input: IP.Input, x: CallerInput)
    requires Accepts(input, x)
    ensures Generator.InputValueOf(input).SlicePointer? <==> !InputParamOf(input, x).OhlcInput?
    ensures InputParamOf(input, x).RealInput? ==> InputParamOf(input, x).reals == x.reals
    ensures InputParamOf(input, x).IntegerInput? ==> InputParamOf(input, x).ints == x.ints
    ensures Generator.InputValueOf(input).PriceComponents? ==>
      var v := Generator.InputValueOf(input);
      InputParamOf(input, x).ohlc
        == Ohlc(ComponentValue(x, v.open), ComponentValue(x, v.low), ComponentValue(x, v.high),
                ComponentValue(x, v.close), ComponentValue(x, v.volume), ComponentValue(x, v.openInterest))
  {
  }

  /** Each component of a bound price input is its flagged projection. */
  lemma BoundComponentIsFlagged(input: IP.Input, x: CallerInput, c: Capability)
    requires Accepts(input, x) && input.kind == IP.Price
    ensures Component(InputParamOf(input, x).ohlc, c) == FlaggedComponent(x, input.flags, c)
  {
  }

  function BoundArgs(info: FuncInfo, args: seq<CallerInput>): seq<InputParam>
    requires |args| <= |info.inputs|
    requires forall i :: 0 <= i < |args| ==> Accepts(info.inputs[i], args[i])
  {
    seq(|args|, i requires 0 <= i < |args| => InputParamOf(info.inputs[i], args[i]))
  }

  /** Every optional parameter binds. */
  predicate ParamsBind(table: SlotTable, settings: seq<OptInputParam>)
  {
    forall i :: 0 <= i < |settings| ==> OptBindCode(table, i, settings[i]) == Success
  }

  /** Every input binds. */
  predicate InputsBind(table: SlotTable, info: FuncInfo, args: seq<CallerInput>)
    requires |args| <= |info.inputs|
    requires forall i :: 0 <= i < |args| ==> Accepts(info.inputs[i], args[i])
  {
    forall i :: 0 <= i < |args| ==> InputBindCode(table, i, InputParamOf(info.inputs[i], args[i])) == Success
  }

  /** Every output buffer binds: its kind is the slot's. */
  predicate OutputsBind(table: SlotTable, info: FuncInfo)
  {
    forall j :: 0 <= j < |info.outputs| ==> SlotTakes(table, j, info.outputs[j].kind)
  }

  /** Output slot `j` exists and has the given kind. */
  predicate SlotTakes(table: SlotTable, j: nat, kind: OP.OutputType)
  {
    j < |table.outputs| && ((kind == OP.Real) == (table.outputs[j] == OP.Real))
  }

  /** The native slot table describes the same function as the descriptor. */
  predicate SlotsAgree(table: SlotTable, info: FuncInfo)
  {
    && |table.params| == |info.params|
    && (forall i :: 0 <= i < |info.params| ==> (info.params[i].kind == OI.Integer) == table.params[i].IntegerParam?)
    && |table.inputs| == |info.inputs|
    && (forall i :: 0 <= i < |info.inputs| ==> table.inputs[i] == InputSlot(info.inputs[i].kind, info.inputs[i].flags))
    && |table.outputs| == |info.outputs|
    && (forall j :: 0 <= j < |info.outputs| ==> table.outputs[j] == info.outputs[j].kind)
  }

  /** A price input is bound with every component its flags ask for, so the
      native side accepts what the generated code passes for any input
      whose slot has the descriptor's kind and flags. */
  lemma GeneratedInputBinds(input: IP.Input, x: CallerInput, table: SlotTable, position: nat)
    requires Accepts(input, x)
    requires position < |table.inputs| && table.inputs[position] == InputSlot(input.kind, input.flags)
    ensures InputBindCode(table, position, InputParamOf(input, x)) == Success
  {
    if input.kind == IP.Price {
      var o := InputParamOf(input, x).ohlc;
      var bound := Generator.PriceBound(input.flags);
      Generator.PriceBoundMatchesFlags(input.flags);
      forall c | Generator.Has(input.flags, c) ensures Component(o, c).Some? {
        BoundComponentIsFlagged(input, x, c);
        var k :| 0 <= k < |bound| && bound[k] == c;
        assert Projection(x, bound[k]).Some?;
      }
      PriceBindNeedsFlaggedComponents(table, position, o);
    }
  }

  /** When the native slot table agrees with the descriptor, everything the
      generated `calculate` binds is accepted. */
  lemma GeneratedBindsSucceed(table: SlotTable, info: FuncInfo, settings: seq<OptInputParam>, args: seq<CallerInput>)
    requires CallableWith(info, settings, args)
    requires SlotsAgree(table, info)
    ensures ParamsBind(table, settings)
    ensures InputsBind(table, info, args)
    ensures OutputsBind(table, info)
  {
    forall i | 0 <= i < |args|
      ensures InputBindCode(table, i, InputParamOf(info.inputs[i], args[i])) == Success
    {
      GeneratedInputBinds(info.inputs[i], args[i], table, i);
    }
  }

  /** The shorter of `n` and a series the native side reads; a null
      pointer reads nothing and leaves `n` as it is. */
  function ShorterOf(n: nat, s: Option<seq<real>>): (m: nat)
    ensures m <= n
    ensures s.Some? ==> m <= |s.value|
    ensures m == n || (s.Some? && m == |s.value|)
  {
    if s.Some? && |s.value| < n then |s.value| else n
  }

  /** How many elements a native call can read from every series of a
      bound input: a series' element count, or the shortest non-null
      component of an `Ohlc`, capped by `cap`. */
  function ReadableFrom(p: InputParam, cap: nat): nat
  {
    match p
    case RealInput(xs) => |xs|
    case IntegerInput(ns) => |ns|
    case OhlcInput(o) =>
      ShorterOf(ShorterOf(ShorterOf(ShorterOf(ShorterOf(ShorterOf(cap, o.open), o.low), o.high),
                                    o.close), o.volume), o.openInterest)
  }

  /** A call over `0 ..= e` stays inside every series of a bound input
      exactly when `e` lies below `ReadableFrom` (for an `Ohlc`, when it
      also lies below the cap). */
  lemma ReadableFromBoundsReads(p: InputParam, cap: nat, e: nat)
    ensures p.OhlcInput? ==> ReadableFrom(p, cap) <= cap
    ensures e < ReadableFrom(p, cap) <==> (p.OhlcInput? ==> e < cap) && SeriesLongerThan(p, e)
  {
    if p.OhlcInput? {
      var o := p.ohlc;
      if e < cap && SeriesLongerThan(p, e) {
        assert Component(o, Open) == o.open && Component(o, Low) == o.low && Component(o, High) == o.high;
        assert Component(o, Close) == o.close && Component(o, Volume) == o.volume;
        assert Component(o, OpenInterest) == o.openInterest;
      }
      if e < ReadableFrom(p, cap) {
        forall c | Component(o, c).Some? ensures |Component(o, c).value| > e {
        }
      }
    }
  }

  /** How many elements can be read from every series the generated code
      binds for an input: the series itself, or each component of the
      `Ohlc` its flags ask for (the components it passes as null pointers
      are never read). The argument's `Length` caps it. */
  function ReadLength(input: IP.Input, x: CallerInput): nat
    requires Accepts(input, x)
  {
    ReadableFrom(InputParamOf(input, x), Length(x))
  }

  /** An index lies below `ReadLength` exactly when it lies below the
      argument's `Length` and inside every series bound for the input: a
      native call over `0 ..= e` reads only elements that exist exactly
      when `e < ReadLength`. */
  lemma ReadLengthBoundsReads(input: IP.Input, x: CallerInput, e: nat)
    requires Accepts(input, x)
    ensures ReadLength(input, x) <= Length(x)
    ensures e < ReadLength(input, x) <==> e < Length(x) && SeriesLongerThan(InputParamOf(input, x), e)
  {
    var p := InputParamOf(input, x);
    ReadableFromBoundsReads(p, Length(x), e);
    if !p.OhlcInput? {
      LengthIsLongestComponent(x);
      assert input.kind != IP.Price;
    }
  }

  // ---------------------------------------------------------------------
  // The invoke range.

  function Lengths(args: seq<CallerInput>): seq<int>
  {
    seq(|args|, i requires 0 <= i < |args| => Length(args[i]))
  }

  function ReadLengths(info: FuncInfo, args: seq<CallerInput>): seq<int>
    requires |args| <= |info.inputs|
    requires forall i :: 0 <= i < |args| ==> Accepts(info.inputs[i], args[i])
  {
    seq(|args|, i requires 0 <= i < |args| => ReadLength(info.inputs[i], args[i]))
  }

  /** `input_len`: the `max!` of the arguments' lengths; it sizes the
      output buffers. */
  function InputLen(args: seq<CallerInput>): (n: nat)
    requires |args| > 0
    ensures forall i :: 0 <= i < |args| ==> Length(args[i]) <= n
  {
    var ls := Lengths(args);
    var m := MaxOf(ls);
    assert m >= ls[0] == Length(args[0]) >= 0;
    assert forall i :: 0 <= i < |args| ==> Length(args[i]) == ls[i] <= m;
    m
  }

  /** `end_idx` as generated: the `min!` of the arguments' lengths, less
      one. It lies below every argument's `length()` and ends right before
      one of them. */
  function EndIndexAsWritten(args: seq<CallerInput>): (e: int)
    requires |args| > 0
    ensures e >= -1
    ensures forall i :: 0 <= i < |args| ==> e < Length(args[i])
    ensures exists i :: 0 <= i < |args| && e == Length(args[i]) - 1
  {
    var ls := Lengths(args);
    assert forall i :: 0 <= i < |args| ==> ls[i] == Length(args[i]);
    MinOf(ls) - 1
  }

  /** The last index the native call may read: the smallest `ReadLength`
      of the arguments, less one. */
  function EndIndex(info: FuncInfo, args: seq<CallerInput>): int
    requires 0 < |args| <= |info.inputs|
    requires forall i :: 0 <= i < |args| ==> Accepts(info.inputs[i], args[i])
  {
    MinOf(ReadLengths(info, args)) - 1
  }

  /** The invoke range `0 ..= EndIndex` lies below every argument's
      `ReadLength`, so inside every series bound for it, and inside the
      range the buffers are sized for; it never goes beyond the generated
      `end_idx`. */
  lemma EndIndexWithinEverySeries(info: FuncInfo, args: seq<CallerInput>)
    requires 0 < |args| <= |info.inputs|
    requires forall i :: 0 <= i < |args| ==> Accepts(info.inputs[i], args[i])
    requires forall i :: 0 <= i < |args| ==> ReadLength(info.inputs[i], args[i]) >= 1
    ensures 0 <= EndIndex(info, args) < InputLen(args)
    ensures EndIndex(info, args) <= EndIndexAsWritten(args)
    ensures forall i :: 0 <= i < |args| ==> EndIndex(info, args) < ReadLength(info.inputs[i], args[i])
  {
    var rs := ReadLengths(info, args);
    var ls := Lengths(args);
    assert MinOf(rs) >= 1 by {
      var m :| 0 <= m < |rs| && rs[m] == MinOf(rs);
    }
    forall i | 0 <= i < |args|
      ensures rs[i] <= ls[i] && EndIndex(info, args) < ReadLength(info.inputs[i], args[i])
    {
      ReadLengthBoundsReads(info.inputs[i], args[i], 0);
      assert rs[i] == ReadLength(info.inputs[i], args[i]) && MinOf(rs) <= rs[i];
    }
    var k :| 0 <= k < |ls| && ls[k] == MinOf(ls);
    assert MinOf(rs) <= rs[k] <= ls[k];
    assert EndIndex(info, args) < ls[0] <= InputLen(args);
  }

  /** `EndIndex` is the longest safe invoke range: every series bound for
      every argument reaches it, and one argument's `ReadLength` ends right
      after it.
      It is the generated `end_idx` exactly when every bound series reaches
      that index, so the correction changes only the calls that would read
      past the end of a series. */
  lemma EndIndexIsLongestSafeRange(info: FuncInfo, args: seq<CallerInput>)
    requires 0 < |args| <= |info.inputs|
    requires forall i :: 0 <= i < |args| ==> Accepts(info.inputs[i], args[i])
    requires forall i :: 0 <= i < |args| ==> ReadLength(info.inputs[i], args[i]) >= 1
    ensures EndIndex(info, args) >= 0
    ensures forall i :: 0 <= i < |args| ==>
              SeriesLongerThan(InputParamOf(info.inputs[i], args[i]), EndIndex(info, args) as nat)
    ensures exists i :: 0 <= i < |args| && ReadLength(info.inputs[i], args[i]) == EndIndex(info, args) + 1
    ensures EndIndexAsWritten(args) >= 0
    ensures EndIndex(info, args) == EndIndexAsWritten(args) <==>
              forall i :: 0 <= i < |args| ==>
                SeriesLongerThan(InputParamOf(info.inputs[i], args[i]), EndIndexAsWritten(args) as nat)
  {
    EndIndexWithinEverySeries(info, args);
    var rs := ReadLengths(info, args);
    var ls := Lengths(args);
    var end: nat := EndIndex(info, args);
    var written := EndIndexAsWritten(args);
    forall i | 0 <= i < |args| ensures SeriesLongerThan(InputParamOf(info.inputs[i], args[i]), end) {
      ReadLengthBoundsReads(info.inputs[i], args[i], end);
    }
    var m :| 0 <= m < |rs| && rs[m] == MinOf(rs);
    assert ReadLength(info.inputs[m], args[m]) == end + 1;
    if forall i :: 0 <= i < |args| ==> SeriesLongerThan(InputParamOf(info.inputs[i], args[i]), written as nat) {
      ReadLengthBoundsReads(info.inputs[m], args[m], written as nat);
      assert MinOf(ls) <= ls[m];
    }
  }

  /** An input flagged high, low and close asks for exactly those three
      components, so every five-tuple is accepted for it, and only the
      tuple's high, low and close series are bound. */
  lemma HlcInputAcceptsTuples(input: IP.Input, x: CallerInput)
    requires input.kind == IP.Price && input.flags == IP.HIGH | IP.LOW | IP.CLOSE
    requires x.PriceTuple?
    ensures Accepts(input, x)
    ensures InputParamOf(input, x).ohlc == Ohlc(None, Some(x.c1), Some(x.c2), Some(x.c3), None, None)
  {
    Generator.PriceBoundMatchesFlags(input.flags);
    assert !Generator.Has(input.flags, OpenInterest);
    BoundSatisfiedIffNoOpenInterest(x, Generator.PriceBound(input.flags));
  }

  /** A function with a single input, flagged high, low and close. */
  predicate HlcFunction(info: FuncInfo)
  {
    |info.inputs| == 1 && info.inputs[0].kind == IP.Price && info.inputs[0].flags == IP.HIGH | IP.LOW | IP.CLOSE
  }

  /** A lone tuple whose high series holds one element and whose other
      components hold two: its `Length` is 2, but only one element can be
      read from the high series. */
  predicate ShortHighSeries(args: seq<CallerInput>)
  {
    && |args| == 1 && args[0].PriceTuple?
    && |args[0].c2| == 1
    && |args[0].c0| == |args[0].c1| == |args[0].c3| == |args[0].c4| == 2
  }

  lemma ShortHighSeriesLengths(info: FuncInfo, args: seq<CallerInput>)
    requires HlcFunction(info) && ShortHighSeries(args)
    ensures Accepts(info.inputs[0], args[0])
    ensures ReadLength(info.inputs[0], args[0]) == 1
    ensures EndIndexAsWritten(args) == 1 && EndIndex(info, args) == 0
  {
    var x := args[0];
    HlcInputAcceptsTuples(info.inputs[0], x);
    var ls := ComponentLengths(x);
    assert ls == [2, 2, 1, 2, 2];
    assert Length(x) == 2 by {
      assert ls[0] <= Length(x);
    }
    assert Lengths(args) == [2];
    assert ReadLengths(info, args) == [1];
  }

  /** As generated, `end_idx` comes from `Length`, which for a tuple is its
      longest component: with a high series of one element and the other
      components of two, `end_idx` is 1, and a call over `0 ..= 1` for an
      input flagged high, low and close reads past the end of the high
      series. The invoke range of the model stops at index 0. */
  lemma AsWrittenEndIndexOverrunsShortSeries(info: FuncInfo, args: seq<CallerInput>)
    requires HlcFunction(info) && ShortHighSeries(args)
    ensures Accepts(info.inputs[0], args[0])
    ensures EndIndexAsWritten(args) == 1
    ensures !SeriesLongerThan(InputParamOf(info.inputs[0], args[0]), EndIndexAsWritten(args) as nat)
    ensures EndIndex(info, args) == 0 && SeriesLongerThan(InputParamOf(info.inputs[0], args[0]), EndIndex(info, args) as nat)
  {
    ShortHighSeriesLengths(info, args);
    EndIndexWithinEverySeries(info, args);
    assert Component(InputParamOf(info.inputs[0], args[0]).ohlc, High) == Some(args[0].c2);
  }

  /** Components the input does not read do not shorten the range: for an
      input flagged high, low and close and a tuple whose high, low and close
      series hold `n` elements, an open or volume series that is shorter,
      even empty, leaves the invoke range at the generated `end_idx`,
      `n - 1`. */
  lemma UnreadComponentsKeepEndIndex(info: FuncInfo, args: seq<CallerInput>, n: nat)
    requires HlcFunction(info) && |args| == 1 && args[0].PriceTuple?
    requires n >= 1 && |args[0].c1| == |args[0].c2| == |args[0].c3| == n
    requires |args[0].c0| <= n && |args[0].c4| <= n
    ensures Accepts(info.inputs[0], args[0]) && ReadLength(info.inputs[0], args[0]) == n
    ensures EndIndexAsWritten(args) == n - 1 && EndIndex(info, args) == n - 1
  {
    var x := args[0];
    HlcInputAcceptsTuples(info.inputs[0], x);
    LengthIsLongestComponent(x);
    assert Length(x) == n;
    var p := InputParamOf(info.inputs[0], x);
    assert ReadableFrom(p, n) == n;
    assert ReadLength(info.inputs[0], x) == n;
    assert Lengths(args) == [n];
    assert ReadLengths(info, args) == [n];
  }

  // ---------------------------------------------------------------------
  // The result.

  /** `wrap_output`: the first `count` elements of a buffer. */
  function Prefix(v: Values, count: nat): Values
  {
    match v
    case RealValues(xs) => RealValues(if count <= |xs| then xs[..count] else xs)
    case IntegerValues(ns) => IntegerValues(if count <= |ns| then ns[..count] else ns)
  }

  /** What output `j` of the function holds after a call that produced
      `n` elements. */
  function Expected(lib: NativeCalls, h: Handle, params: seq<OptInputParam>, ins: seq<InputParam>,
                    kind: OP.OutputType, j: nat, n: nat): Values
  {
    match kind
    case Real => RealValues(seq(n, k requires 0 <= k < n => lib.realOutput(h, params, ins, j, k)))
    case Integer => IntegerValues(seq(n, k requires 0 <= k < n => lib.integerOutput(h, params, ins, j, k)))
  }

  /** A buffer of `size` zeros of an output's kind. */
  function Zeros(kind: OP.OutputType, size: nat): Values
  {
    match kind
    case Real => RealValues(seq(size, _ => 0.0))
    case Integer => IntegerValues(seq(size, _ => 0))
  }

  function Size(v: Values): nat
  {
    match v
    case RealValues(xs) => |xs|
    case IntegerValues(ns) => |ns|
  }

  /** The front of a buffer the call wrote is exactly what the function
      produced, whatever the buffer held before. */
  lemma PrefixOfProduced(before: Values, count: nat, lib: NativeCalls, h: Handle, params: seq<OptInputParam>,
                         ins: seq<InputParam>, kind: OP.OutputType, j: nat)
    requires before.RealValues? <==> kind == OP.Real
    requires count <= Size(before)
    ensures Prefix(Produced(before, count, lib, h, params, ins, j), count)
            == Expected(lib, h, params, ins, kind, j, count)
  {
  }

  /** One result per output, each holding the `n` elements produced. */
  function Results(lib: NativeCalls, h: Handle, params: seq<OptInputParam>, ins: seq<InputParam>,
                   outputs: seq<OP.Output>, n: nat): seq<Values>
  {
    seq(|outputs|, j requires 0 <= j < |outputs| => Expected(lib, h, params, ins, outputs[j].kind, j, n))
  }

  /** The optional parameters after `set_param` has bound each setting over
      the defaults. */
  function WithSettings(defaults: seq<OptInputParam>, settings: seq<OptInputParam>): seq<OptInputParam>
  {
    seq(|defaults|, i requires 0 <= i < |defaults| => if i < |settings| then settings[i] else defaults[i])
  }

  /** What the generated `calculate` returns once its context is allocated:
      a refused setting or input ends the call with `BadParam`, and
      otherwise the call goes on as `Sized` says, with the settings bound
      over the defaults. */
  function Ran(lib: NativeCalls, h: Handle, info: FuncInfo, settings: seq<OptInputParam>,
               args: seq<CallerInput>): Outcome<seq<Values>>
    requires CallableWith(info, settings, args)
  {
    var table := lib.slots(h);
    if !ParamsBind(table, settings) || !InputsBind(table, info, args) then Failed(Native(BadParam))
    else Sized(lib, h, info, args, WithSettings(table.params, settings))
  }

  /** Once settings and inputs are bound: a lookback that fails ends the
      call with the size message, a refused output buffer with `BadParam`,
      and otherwise the function is invoked. */
  function Sized(lib: NativeCalls, h: Handle, info: FuncInfo, args: seq<CallerInput>,
                 params: seq<OptInputParam>): Outcome<seq<Values>>
    requires ArgsFit(info, args)
  {
    if lib.lookback(h, params).0 != Success then Failed(Message(REQUIRED_SIZE_ERROR))
    else if !OutputsBind(lib.slots(h), info) then Failed(Native(BadParam))
    else Invoked(lib, h, info, args, params)
  }

  /** Once every buffer is bound: an input or output slot of the native
      function that the descriptor does not list stays unbound and the
      native call refuses it, and so does the function itself when its
      return code is not success; otherwise one result per output, each
      holding the elements produced over `0 ..= EndIndex(info, args)`. */
  function Invoked(lib: NativeCalls, h: Handle, info: FuncInfo, args: seq<CallerInput>,
                   params: seq<OptInputParam>): Outcome<seq<Values>>
    requires ArgsFit(info, args)
  {
    var table := lib.slots(h);
    if |args| < |table.inputs| then Failed(Native(FromRetCode(InputNotAllInitialize)))
    else if |info.outputs| < |table.outputs| then Failed(Native(FromRetCode(OutputNotAllInitialize)))
    else
      EndIndexWithinEverySeries(info, args);
      var end: nat := EndIndex(info, args);
      var code := lib.callCode(h, params, BoundArgs(info, args), 0, end);
      if code != Success then Failed(Native(FromRetCode(code)))
      else
        var n := OutputSize(AsUsize(lib.lookback(h, params).1), 0, end);
        Done(Results(lib, h, params, BoundArgs(info, args), info.outputs, n))
  }

  /** What the generated `calculate` returns: a name the registry cannot
      resolve or a context that cannot be allocated ends the call with its
      error, and otherwise the call runs as `Ran` says. */
  function Calculated(reg: Registry, lib: NativeCalls, info: FuncInfo, settings: seq<OptInputParam>,
                      args: seq<CallerInput>): Outcome<seq<Values>>
    requires CallableWith(info, settings, args)
  {
    match FuncHandles.TryFromStr(reg, info.name)
    case Err(e) => Failed(Native(e))
    case Ok(h) =>
      if lib.allocCode(h) != Success then Failed(Native(FromRetCode(lib.allocCode(h))))
      else Ran(lib, h, info, settings, args)
  }

  /** For a function whose native slots agree with its descriptor, once
      the name resolves and the context is allocated, the generated
      `calculate` fails exactly when the lookback fails (with the size
      message) or the native function refuses the call (with its code's
      error). Otherwise it returns one result per output, of that output's
      kind, each holding the elements produced from the function's lookback
      (cast `as usize`) up to `EndIndex`: never more than every argument's
      `ReadLength`. */
  lemma CalculatedWhenSlotsAgree(reg: Registry, lib: NativeCalls, info: FuncInfo,
                                 settings: seq<OptInputParam>, args: seq<CallerInput>, h: Handle)
    requires CallableWith(info, settings, args)
    requires FuncHandles.TryFromStr(reg, info.name) == Ok(h) && lib.allocCode(h) == Success
    requires SlotsAgree(lib.slots(h), info)
    ensures EndIndex(info, args) >= 0
    ensures var r := Calculated(reg, lib, info, settings, args);
      var params := WithSettings(lib.slots(h).params, settings);
      var lookback := lib.lookback(h, params);
      var code := lib.callCode(h, params, BoundArgs(info, args), 0, EndIndex(info, args) as nat);
      && (r.Failed? <==> lookback.0 != Success || code != Success)
      && (r.Failed? && lookback.0 != Success ==> r.error == Message(REQUIRED_SIZE_ERROR))
      && (r.Failed? && lookback.0 == Success ==> r.error == Native(FromRetCode(code)))
      && (r.Done? ==>
            && |r.value| == |info.outputs|
            && forall j :: 0 <= j < |r.value| ==>
                 && (r.value[j].RealValues? <==> info.outputs[j].kind == OP.Real)
                 && Size(r.value[j]) == (if AsUsize(lookback.1) > EndIndex(info, args) then 0
                                         else EndIndex(info, args) + 1 - AsUsize(lookback.1))
                 && forall i :: 0 <= i < |args| ==> Size(r.value[j]) <= ReadLength(info.inputs[i], args[i]))
  {
    var table := lib.slots(h);
    var params := WithSettings(table.params, settings);
    GeneratedBindsSucceed(table, info, settings, args);
    EndIndexWithinEverySeries(info, args);
    assert Calculated(reg, lib, info, settings, args) == Sized(lib, h, info, args, params);
    var end: nat := EndIndex(info, args);
    if lib.lookback(h, params).0 == Success && lib.callCode(h, params, BoundArgs(info, args), 0, end) == Success {
      var n := OutputSize(AsUsize(lib.lookback(h, params).1), 0, end);
      assert Sized(lib, h, info, args, params) == Done(Results(lib, h, params, BoundArgs(info, args), info.outputs, n));
      ResultsHaveOutputShape(lib, h, params, BoundArgs(info, args), info.outputs, n);
    }
  }

  /** A setting the native function rejects (a period of 1 for an SMA-shaped
      function, say) leaves the lookback at -1 and makes the call return
      `TA_BAD_PARAM`: `calculate` then ends with `BadParam`, not with
      values. */
  lemma RefusedSettingEndsCalculate(reg: Registry, lib: NativeCalls, info: FuncInfo,
                                    settings: seq<OptInputParam>, args: seq<CallerInput>, h: Handle)
    requires CallableWith(info, settings, args)
    requires FuncHandles.TryFromStr(reg, info.name) == Ok(h) && lib.allocCode(h) == Success
    requires SlotsAgree(lib.slots(h), info)
    requires lib.lookback(h, WithSettings(lib.slots(h).params, settings)) == (Success, -1)
    requires forall ins, start, end :: lib.callCode(h, WithSettings(lib.slots(h).params, settings), ins, start, end) == BadParamCode
    ensures Calculated(reg, lib, info, settings, args) == Failed(Native(BadParam))
  {
    CalculatedWhenSlotsAgree(reg, lib, info, settings, args, h);
  }

  /** One result per output, each of the output's kind and holding `n`
      elements. */
  lemma ResultsHaveOutputShape(lib: NativeCalls, h: Handle, params: seq<OptInputParam>, ins: seq<InputParam>,
                               outputs: seq<OP.Output>, n: nat)
    ensures |Results(lib, h, params, ins, outputs, n)| == |outputs|
    ensures forall j :: 0 <= j < |outputs| ==>
              && (Results(lib, h, params, ins, outputs, n)[j].RealValues? <==> outputs[j].kind == OP.Real)
              && Size(Results(lib, h, params, ins, outputs, n)[j]) == n
  {
  }

  // ---------------------------------------------------------------------
  // The generated statements.

  /** `params.set_param(i, ...)?` for each optional parameter in turn. */
  method BindParams(holder: ParamHolder, info: FuncInfo, settings: seq<OptInputParam>) returns (r: Result<()>)
    requires holder.Valid() && !holder.freed
    requires |settings| == |info.params| && PositionsAreIndices(info)
    modifies holder
    ensures holder.Valid() && !holder.freed
    ensures holder.inputs == old(holder.inputs) && holder.outputs == old(holder.outputs)
    ensures r.Ok? <==> ParamsBind(holder.Table(), settings)
    ensures r.Err? ==> r.error == BadParam
    ensures r.Ok? ==> forall i :: 0 <= i < |holder.params| ==>
              holder.params[i] == if i < |settings| then settings[i] else old(holder.params)[i]
  {
    for i := 0 to |settings|
      invariant holder.Valid() && !holder.freed
      invariant holder.inputs == old(holder.inputs) && holder.outputs == old(holder.outputs)
      invariant forall k :: 0 <= k < i ==> OptBindCode(holder.Table(), k, settings[k]) == Success
      invariant |holder.params| == |old(holder.params)|
      invariant forall k :: 0 <= k < |holder.params| ==>
                  holder.params[k] == if k < i then settings[k] else old(holder.params)[k]
    {
      var bind := holder.SetParam(info.params[i].position, settings[i]);
      if bind.Err? {
        return Err(bind.error);
      }
    }
    return Ok(());
  }

  /** `params.set_input(i, ...)?` for each input in turn. */
  method BindInputs(holder: ParamHolder, info: FuncInfo, args: seq<CallerInput>) returns (r: Result<()>)
    requires holder.Valid() && !holder.freed
    requires |args| == |info.inputs| && PositionsAreIndices(info)
    requires forall i :: 0 <= i < |args| ==> Accepts(info.inputs[i], args[i])
    modifies holder
    ensures holder.Valid() && !holder.freed
    ensures holder.params == old(holder.params) && holder.outputs == old(holder.outputs)
    ensures r.Ok? <==> InputsBind(holder.Table(), info, args)
    ensures r.Err? ==> r.error == BadParam
    ensures r.Ok? ==> forall i :: 0 <= i < |holder.inputs| ==>
              holder.inputs[i] == if i < |args| then Some(InputParamOf(info.inputs[i], args[i])) else old(holder.inputs)[i]
  {
    for i := 0 to |args|
      invariant holder.Valid() && !holder.freed
      invariant holder.params == old(holder.params) && holder.outputs == old(holder.outputs)
      invariant forall k :: 0 <= k < i ==> InputBindCode(holder.Table(), k, InputParamOf(info.inputs[k], args[k])) == Success
      invariant |holder.inputs| == |old(holder.inputs)|
      invariant forall k :: 0 <= k < |holder.inputs| ==>
                  holder.inputs[k] == if k < i then Some(InputParamOf(info.inputs[k], args[k])) else old(holder.inputs)[k]
    {
      var bind := holder.SetInput(info.inputs[i].position, InputParamOf(info.inputs[i], args[i]));
      if bind.Err? {
        return Err(bind.error);
      }
    }
    return Ok(());
  }

  /** `vec![0.0; output_size]` or `vec![0; output_size]`, by the output's
      kind. */
  method NewBuffer(kind: OP.OutputType, size: nat) returns (p: OutputParam)
    ensures fresh(BufferOf(p))
    ensures p.RealOutput? <==> kind == OP.Real
    ensures BufferLength(p) == size
    ensures Contents(p) == Zeros(kind, size)
  {
    match kind
    case Real =>
      var a := new real[size](_ => 0.0);
      p := RealOutput(a);
    case Integer =>
      var a := new int[size](_ => 0);
      p := IntegerOutput(a);
  }

  /** A buffer of an output's kind holding `size` elements. */
  predicate BufferFits(p: OutputParam, kind: OP.OutputType, size: nat)
  {
    (p.RealOutput? <==> kind == OP.Real) && BufferLength(p) == size
  }

  /** `vec![0; output_size]`, then `params.set_output(position, ...)?`. */
  method BindOutput(holder: ParamHolder, kind: OP.OutputType, position: nat, size: nat)
    returns (r: Result<()>, buffer: OutputParam)
    requires holder.Valid() && !holder.freed
    modifies holder
    ensures holder.Valid() && !holder.freed
    ensures fresh(BufferOf(buffer)) && BufferFits(buffer, kind, size)
    ensures r.Ok? <==> SlotTakes(holder.Table(), position, kind)
    ensures r.Err? ==> r.error == BadParam
    ensures holder.params == old(holder.params) && holder.inputs == old(holder.inputs)
    ensures holder.outputs == if r.Ok? then old(holder.outputs)[position := Some(buffer)] else old(holder.outputs)
  {
    buffer := NewBuffer(kind, size);
    r := holder.SetOutput(position, buffer);
  }

  /** For each output in turn: `vec![0; output_size]`, then
      `params.set_output(j, ...)?`. The buffers are returned to the caller,
      as the generated code keeps them in locals. */
  method BindOutputs(holder: ParamHolder, info: FuncInfo, size: nat) returns (r: Result<()>, buffers: seq<OutputParam>)
    requires holder.Valid() && !holder.freed && PositionsAreIndices(info)
    modifies holder
    ensures holder.Valid() && !holder.freed
    ensures holder.params == old(holder.params) && holder.inputs == old(holder.inputs)
    ensures r.Ok? <==> OutputsBind(holder.Table(), info)
    ensures r.Err? ==> r.error == BadParam
    ensures |buffers| <= |info.outputs|
    ensures r.Ok? ==> |buffers| == |info.outputs|
    ensures forall j :: 0 <= j < |buffers| ==> fresh(BufferOf(buffers[j])) && BufferFits(buffers[j], info.outputs[j].kind, size)
    ensures forall i, j :: 0 <= i < j < |buffers| ==> BufferOf(buffers[i]) != BufferOf(buffers[j])
    ensures |holder.outputs| == |old(holder.outputs)|
    ensures r.Ok? ==> forall j :: 0 <= j < |holder.outputs| ==>
              holder.outputs[j] == if j < |buffers| then Some(buffers[j]) else old(holder.outputs)[j]
    ensures r.Err? ==> |buffers| > 0 && forall j :: 0 <= j < |holder.outputs| ==>
              holder.outputs[j] == if j < |buffers| - 1 then Some(buffers[j]) else old(holder.outputs)[j]
  {
    buffers := [];
    for j := 0 to |info.outputs|
      invariant holder.Valid() && !holder.freed
      invariant holder.params == old(holder.params) && holder.inputs == old(holder.inputs)
      invariant |buffers| == j
      invariant forall k :: 0 <= k < j ==> SlotTakes(holder.Table(), k, info.outputs[k].kind)
      invariant forall k :: 0 <= k < j ==> fresh(BufferOf(buffers[k])) && BufferFits(buffers[k], info.outputs[k].kind, size)
      invariant forall i, k :: 0 <= i < k < j ==> BufferOf(buffers[i]) != BufferOf(buffers[k])
      invariant |holder.outputs| == |old(holder.outputs)|
      invariant forall k :: 0 <= k < |holder.outputs| ==>
                  holder.outputs[k] == if k < j then Some(buffers[k]) else old(holder.outputs)[k]
    {
      var bind, buffer := BindOutput(holder, info.outputs[j].kind, info.outputs[j].position, size);
      assert forall k :: 0 <= k < j ==> BufferOf(buffers[k]) != BufferOf(buffer);
      buffers := buffers + [buffer];
      if bind.Err? {
        return Err(bind.error), buffers;
      }
    }
    return Ok(()), buffers;
  }

  /** `wrap_output(buffer, num_elements)`. */
  method WrapOutput(p: OutputParam, count: nat) returns (v: Values)
    requires count <= BufferLength(p)
    ensures v == Prefix(Contents(p), count)
  {
    match p
    case RealOutput(a) => v := RealValues(a[..count]);
    case IntegerOutput(a) => v := IntegerValues(a[..count]);
  }

  /** The body of the generated `calculate` after the context is
      allocated: bind the settings, then the inputs, then go on. */
  method Run(holder: ParamHolder, info: FuncInfo, settings: seq<OptInputParam>, args: seq<CallerInput>)
    returns (r: Outcome<seq<Values>>)
    requires holder.Valid() && !holder.freed
    requires CallableWith(info, settings, args)
    requires holder.params == holder.Table().params
    requires forall i :: 0 <= i < |holder.inputs| ==> holder.inputs[i].None?
    requires forall j :: 0 <= j < |holder.outputs| ==> holder.outputs[j].None?
    modifies holder
    ensures holder.Valid() && !holder.freed
    ensures r == Ran(holder.lib, holder.handle, info, settings, args)
  {
    var boundParams := BindParams(holder, info, settings);
    if boundParams.Err? {
      return Failed(Native(boundParams.error));
    }
    assert holder.params == WithSettings(holder.Table().params, settings);
    var boundInputs := BindInputs(holder, info, args);
    if boundInputs.Err? {
      return Failed(Native(boundInputs.error));
    }
    r := RunBound(holder, info, args);
  }

  /** Every input slot the descriptor lists holds its argument, and no
      other input slot is bound. */
  predicate InputsHeld(inputs: seq<Option<InputParam>>, info: FuncInfo, args: seq<CallerInput>)
    requires ArgsFit(info, args)
  {
    forall i :: 0 <= i < |inputs| ==>
      inputs[i] == if i < |args| then Some(InputParamOf(info.inputs[i], args[i])) else None
  }

  /** `input_len`, `end_idx` and `required_output_size(0, input_len)`, then
      one buffer per output, then the call. */
  method RunBound(holder: ParamHolder, info: FuncInfo, args: seq<CallerInput>) returns (r: Outcome<seq<Values>>)
    requires holder.Valid() && !holder.freed
    requires ArgsFit(info, args) && PositionsAreIndices(info)
    requires InputsBind(holder.Table(), info, args)
    requires InputsHeld(holder.inputs, info, args)
    requires OutputsHeld(holder.outputs, [])
    modifies holder
    ensures holder.Valid() && !holder.freed
    ensures holder.params == old(holder.params)
    ensures r == Sized(holder.lib, holder.handle, info, args, holder.params)
  {
    var inputLen := InputLen(args);
    var outputSize := holder.RequiredOutputSize(0, inputLen);
    if outputSize.None? {
      return Failed(Message(REQUIRED_SIZE_ERROR));
    }
    var boundOutputs, buffers := BindOutputs(holder, info, outputSize.value);
    if boundOutputs.Err? {
      return Failed(Native(boundOutputs.error));
    }
    r := Invoke(holder, info, args, buffers, outputSize.value);
  }

  /** Whether output slots `0 .. |buffers| - 1` hold the buffers and no
      other output slot is bound. */
  predicate OutputsHeld(outputs: seq<Option<OutputParam>>, buffers: seq<OutputParam>)
  {
    forall j :: 0 <= j < |outputs| ==> outputs[j] == if j < |buffers| then Some(buffers[j]) else None
  }

  /** With the descriptor's inputs and outputs bound, the native call is
      refused exactly when the native function has a slot the descriptor
      does not list, with the error `Invoked` gives; otherwise it produces
      `OutputSize` elements from the arguments. */
  lemma CallOutcomeFollowsSlots(holder: ParamHolder, info: FuncInfo, args: seq<CallerInput>,
                                buffers: seq<OutputParam>, end: nat)
    requires holder.Valid() && ArgsFit(info, args)
    requires InputsBind(holder.Table(), info, args) && InputsHeld(holder.inputs, info, args)
    requires |buffers| == |info.outputs| && OutputsBind(holder.Table(), info)
    requires OutputsHeld(holder.outputs, buffers)
    requires holder.Lookback().Some? && end == EndIndex(info, args)
    ensures holder.CallOutcome(0, end).Err? ==>
              Invoked(holder.lib, holder.handle, info, args, holder.params) == Failed(Native(holder.CallOutcome(0, end).error))
    ensures holder.CallOutcome(0, end).Ok? ==>
              && holder.CallOutcome(0, end).value.1 == OutputSize(holder.Lookback().value, 0, end)
              && holder.AllInputsBound() && holder.BoundInputs() == BoundArgs(info, args)
              && |holder.outputs| == |buffers|
              && Invoked(holder.lib, holder.handle, info, args, holder.params)
                 == Done(Results(holder.lib, holder.handle, holder.params, BoundArgs(info, args), info.outputs,
                                 holder.CallOutcome(0, end).value.1))
  {
    var table := holder.Table();
    assert |args| <= |table.inputs| by {
      assert InputBindCode(table, |args| - 1, InputParamOf(info.inputs[|args| - 1], args[|args| - 1])) == Success;
    }
    if |args| < |table.inputs| {
      assert holder.inputs[|args|].None?;
    } else if |info.outputs| < |table.outputs| {
      assert holder.outputs[|info.outputs|].None?;
    } else {
      assert holder.AllInputsBound();
      assert holder.BoundInputs() == BoundArgs(info, args);
      if |info.outputs| > 0 {
        assert SlotTakes(table, |info.outputs| - 1, info.outputs[|info.outputs| - 1].kind);
      }
    }
  }

  /** Every bound series is longer than an index below every argument's
      `ReadLength`. */
  lemma HeldSeriesAreLongEnough(inputs: seq<Option<InputParam>>, info: FuncInfo, args: seq<CallerInput>, end: nat)
    requires ArgsFit(info, args) && InputsHeld(inputs, info, args)
    requires forall i :: 0 <= i < |args| ==> end < ReadLength(info.inputs[i], args[i])
    ensures forall i :: 0 <= i < |inputs| && inputs[i].Some? ==> SeriesLongerThan(inputs[i].value, end)
  {
    forall i | 0 <= i < |inputs| && inputs[i].Some? ensures SeriesLongerThan(inputs[i].value, end) {
      ReadLengthBoundsReads(info.inputs[i], args[i], end);
    }
  }

  /** Buffers of `size` elements held in the output slots: no two slots
      share one, and each has room for `need <= size` elements. */
  lemma HeldBuffersFit(holder: ParamHolder, buffers: seq<OutputParam>, size: nat, need: nat)
    requires OutputsHeld(holder.outputs, buffers)
    requires forall j :: 0 <= j < |buffers| ==> BufferLength(buffers[j]) == size
    requires forall i, j :: 0 <= i < j < |buffers| ==> BufferOf(buffers[i]) != BufferOf(buffers[j])
    requires need <= size
    ensures holder.BuffersDistinct()
    ensures forall j :: 0 <= j < |holder.outputs| && holder.outputs[j].Some? ==>
              BufferLength(holder.outputs[j].value) >= need
  {
  }

  /** Everything the native call needs from its caller holds for the
      invoke range `0 ..= EndIndex(info, args)`: the bound buffers are distinct
      and have room for every element produced, and every bound series
      reaches the end of the range. */
  lemma CallIsSafe(holder: ParamHolder, info: FuncInfo, args: seq<CallerInput>, buffers: seq<OutputParam>, size: nat)
    requires ArgsFit(info, args) && InputsHeld(holder.inputs, info, args)
    requires holder.RequiredOutputSize(0, InputLen(args)) == Some(size)
    requires |buffers| == |info.outputs|
    requires forall j :: 0 <= j < |buffers| ==> BufferFits(buffers[j], info.outputs[j].kind, size)
    requires forall i, j :: 0 <= i < j < |buffers| ==> BufferOf(buffers[i]) != BufferOf(buffers[j])
    requires OutputsHeld(holder.outputs, buffers)
    ensures EndIndex(info, args) >= 0
    ensures holder.Lookback().Some? && OutputSize(holder.Lookback().value, 0, EndIndex(info, args) as nat) <= size
    ensures holder.BuffersDistinct()
    ensures forall i :: 0 <= i < |holder.inputs| && holder.inputs[i].Some? ==>
              SeriesLongerThan(holder.inputs[i].value, EndIndex(info, args) as nat)
    ensures holder.RequiredOutputSize(0, EndIndex(info, args) as nat).Some? ==>
              forall j :: 0 <= j < |holder.outputs| && holder.outputs[j].Some? ==>
                BufferLength(holder.outputs[j].value) >= holder.RequiredOutputSize(0, EndIndex(info, args) as nat).value
  {
    EndIndexWithinEverySeries(info, args);
    var endIdx: nat := EndIndex(info, args);
    var lookback := holder.Lookback().value;
    BufferCoversInvokeRange(lookback, endIdx, InputLen(args));
    HeldSeriesAreLongEnough(holder.inputs, info, args, endIdx);
    HeldBuffersFit(holder, buffers, size, OutputSize(lookback, 0, endIdx));
  }

  /** What the buffers hold. */
  ghost function ContentsOf(buffers: seq<OutputParam>): (vs: seq<Values>)
    reads set j | 0 <= j < |buffers| :: BufferOf(buffers[j])
    ensures |vs| == |buffers|
    ensures forall j :: 0 <= j < |buffers| ==> vs[j] == Contents(buffers[j])
  {
    if |buffers| == 0 then [] else ContentsOf(buffers[..|buffers| - 1]) + [Contents(buffers[|buffers| - 1])]
  }

  /** `wrap_output(buffer, num_elements)` for each buffer in turn, after a
      call that wrote `count` elements into each: the results are what the
      function produced. */
  method WrapOutputs(buffers: seq<OutputParam>, count: nat, ghost before: seq<Values>, ghost lib: NativeCalls,
                     ghost h: Handle, ghost params: seq<OptInputParam>, ghost ins: seq<InputParam>,
                     ghost outputs: seq<OP.Output>)
    returns (values: seq<Values>)
    requires |before| == |buffers| == |outputs|
    requires forall j :: 0 <= j < |buffers| ==>
               && (before[j].RealValues? <==> outputs[j].kind == OP.Real)
               && count <= Size(before[j])
               && Contents(buffers[j]) == Produced(before[j], count, lib, h, params, ins, j)
    ensures values == Results(lib, h, params, ins, outputs, count)
  {
    values := [];
    for j := 0 to |buffers|
      invariant |values| == j
      invariant forall k :: 0 <= k < j ==> values[k] == Expected(lib, h, params, ins, outputs[k].kind, k, count)
    {
      PrefixOfProduced(before[j], count, lib, h, params, ins, outputs[j].kind, j);
      var v := WrapOutput(buffers[j], count);
      values := values + [v];
    }
  }

  /** `params.call(0, end)` with the buffers held in the output slots,
      each of `size` elements, room for everything a call over `0 ..= end`
      produces. `before` is what the buffers held before the call. */
  method CallNative(holder: ParamHolder, info: FuncInfo, buffers: seq<OutputParam>, size: nat, end: nat)
    returns (call: Result<(nat, nat)>, ghost before: seq<Values>)
    requires holder.Valid() && !holder.freed && holder.BuffersDistinct()
    requires forall i :: 0 <= i < |holder.inputs| && holder.inputs[i].Some? ==> SeriesLongerThan(holder.inputs[i].value, end)
    requires holder.Lookback().Some? && OutputSize(holder.Lookback().value, 0, end) <= size
    requires |buffers| == |info.outputs|
    requires forall j :: 0 <= j < |buffers| ==> BufferFits(buffers[j], info.outputs[j].kind, size)
    requires OutputsHeld(holder.outputs, buffers)
    modifies holder.Buffers()
    ensures unchanged(holder)
    ensures call == holder.CallOutcome(0, end)
    ensures |before| == |buffers|
    ensures forall j :: 0 <= j < |buffers| ==>
              (before[j].RealValues? <==> info.outputs[j].kind == OP.Real) && Size(before[j]) == size
    ensures call.Ok? ==> call.value.1 <= size && holder.AllInputsBound()
    ensures call.Ok? ==> forall j :: 0 <= j < |buffers| && j < |holder.outputs| ==>
              Contents(buffers[j]) == Produced(before[j], call.value.1, holder.lib, holder.handle, holder.params,
                                               holder.BoundInputs(), j)
  {
    before := ContentsOf(buffers);
    call := holder.Call(0, end);
    if call.Ok? {
      forall j | 0 <= j < |buffers| && j < |holder.outputs|
        ensures Contents(buffers[j]) == Produced(before[j], call.value.1, holder.lib, holder.handle, holder.params,
                                                 holder.BoundInputs(), j)
      {
        assert holder.outputs[j] == Some(buffers[j]);
      }
    }
  }

  /** `params.call(0, end_idx)?`, then `wrap_output` on each buffer. */
  method Invoke(holder: ParamHolder, info: FuncInfo, args: seq<CallerInput>, buffers: seq<OutputParam>, size: nat)
    returns (r: Outcome<seq<Values>>)
    requires holder.Valid() && !holder.freed
    requires ArgsFit(info, args)
    requires InputsBind(holder.Table(), info, args) && InputsHeld(holder.inputs, info, args)
    requires holder.RequiredOutputSize(0, InputLen(args)) == Some(size)
    requires |buffers| == |info.outputs| && OutputsBind(holder.Table(), info)
    requires forall j :: 0 <= j < |buffers| ==> BufferFits(buffers[j], info.outputs[j].kind, size)
    requires forall i, j :: 0 <= i < j < |buffers| ==> BufferOf(buffers[i]) != BufferOf(buffers[j])
    requires OutputsHeld(holder.outputs, buffers)
    modifies holder.Buffers()
    ensures r == Invoked(holder.lib, holder.handle, info, args, holder.params)
  {
    CallIsSafe(holder, info, args, buffers, size);
    var endIdx: nat := EndIndex(info, args);
    CallOutcomeFollowsSlots(holder, info, args, buffers, endIdx);
    var call, before := CallNative(holder, info, buffers, size, endIdx);
    if call.Err? {
      return Failed(Native(call.error));
    }
    var values := WrapOutputs(buffers, call.value.1, before, holder.lib, holder.handle, holder.params,
                              holder.BoundInputs(), info.outputs);
    return Done(values);
  }

  /** `calculate`: resolve the function, allocate its context, run it and
      free the context, on the error paths as well. */
  method Calculate(reg: Registry, lib: NativeCalls, info: FuncInfo, settings: seq<OptInputParam>,
                   args: seq<CallerInput>) returns (r: Outcome<seq<Values>>, ghost holder: ParamHolder?)
    requires CallableWith(info, settings, args)
    ensures r == Calculated(reg, lib, info, settings, args)
    ensures holder == null <==>
              FuncHandles.TryFromStr(reg, info.name).Err? || lib.allocCode(FuncHandles.TryFromStr(reg, info.name).value) != Success
    ensures holder != null ==> fresh(holder) && holder.freed
  {
    var handle := FuncHandles.TryFromStr(reg, info.name);
    if handle.Err? {
      return Failed(Native(handle.error)), null;
    }
    var alloc := ParamHolder.Alloc(lib, handle.value);
    if alloc.Err? {
      return Failed(Native(alloc.error)), null;
    }
    var params := alloc.value;
    holder := params;
    r := Run(params, info, settings, args);
    params.Free();
  }
}
