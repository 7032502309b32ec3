/** The call context of one native function (`ParamHolder`): its optional
    parameters, input series and output buffers are bound slot by slot, its
    lookback gives the size of the output window, and it is freed once. */
module ParamHolders {
  import opened TaTypes
  import opened Folds
  import opened Registry
  import opened CallerInputs
  import IP = InputParams
  import OP = OutputParams

  // ---------------------------------------------------------------------
  // The six-tuple of price series accepted by the binding crate.

  /** `(&[f64], &[f64], &[f64], &[f64], &[f64], &[f64])`. */
  datatype SixTuple = SixTuple(c0: seq<real>, c1: seq<real>, c2: seq<real>,
                               c3: seq<real>, c4: seq<real>, c5: seq<real>)

  /** `Length::length` of the six-tuple: `max!` of the component lengths. */
  function SixLength(t: SixTuple): nat
  {
    var m := MaxOf([|t.c0|, |t.c1|, |t.c2|, |t.c3|, |t.c4|, |t.c5|]);
    assert m >= |t.c0|;
    m
  }

  /** The six projections `open()` .. `open_interest()`. */
  function SixProjection(t: SixTuple, c: Capability): seq<real>
  {
    match c
    case Open => t.c0
    case Low => t.c1
    case High => t.c2
    case Close => t.c3
    case Volume => t.c4
    case OpenInterest => t.c5
  }

  /** The six-tuple's length is its longest component, and the projections
      pick `.0` to `.5` in the order open, low, high, close, volume,
      open interest. */
  lemma SixTupleLengthAndProjections(t: SixTuple)
    ensures forall c :: |SixProjection(t, c)| <= SixLength(t)
    ensures exists c :: |SixProjection(t, c)| == SixLength(t)
    ensures SixProjection(t, Open) == t.c0 && SixProjection(t, Low) == t.c1
    ensures SixProjection(t, High) == t.c2 && SixProjection(t, Close) == t.c3
    ensures SixProjection(t, Volume) == t.c4 && SixProjection(t, OpenInterest) == t.c5
  {
    var ls := [|t.c0|, |t.c1|, |t.c2|, |t.c3|, |t.c4|, |t.c5|];
    assert ls[0] == |t.c0| && ls[1] == |t.c1| && ls[2] == |t.c2|;
    assert ls[3] == |t.c3| && ls[4] == |t.c4| && ls[5] == |t.c5|;
    var i :| 0 <= i < 6 && ls[i] == SixLength(t);
    var cs := [Open, Low, High, Close, Volume, OpenInterest];
    assert |SixProjection(t, cs[i])| == SixLength(t);
  }

  // ---------------------------------------------------------------------
  // What can be bound.

  /** `OptInputParam`. */
  datatype OptInputParam = RealParam(x: real) | IntegerParam(n: int)

  /** `Ohlc`: one optional series per price component (absent is the null
      pointer the generated code passes for a component it does not need). */
  datatype Ohlc = Ohlc(
    open: Option<seq<real>>,
    low: Option<seq<real>>,
    high: Option<seq<real>>,
    close: Option<seq<real>>,
    volume: Option<seq<real>>,
    openInterest: Option<seq<real>>)

  /** `InputParam`. */
  datatype InputParam = RealInput(reals: seq<real>) | IntegerInput(ints: seq<int>) | OhlcInput(ohlc: Ohlc)

  /** `OutputParam`: a buffer the native call writes into. */
  datatype OutputParam = RealOutput(realBuf: array<real>) | IntegerOutput(intBuf: array<int>)

  /** The field of an `Ohlc` that holds a given price component. */
  function Component(o: Ohlc, c: Capability): Option<seq<real>>
  {
    match c
    case Open => o.open
    case Low => o.low
    case High => o.high
    case Close => o.close
    case Volume => o.volume
    case OpenInterest => o.openInterest
  }

  /** The price components in the argument order of the native
      `TA_SetInputParamPricePtr`: ascending flag bit. */
  const NATIVE_PRICE_ORDER: seq<Capability> := [Open, High, Low, Close, Volume, OpenInterest]

  /** The six pointers `set_input` hands to `TA_SetInputParamPricePtr`. */
  function NativePriceArgs(o: Ohlc): seq<Option<seq<real>>>
  {
    [o.open, o.high, o.low, o.close, o.volume, o.openInterest]
  }

  /** Although the struct lists `low` before `high`, argument `k` of the
      native call is the component whose flag is bit `k`, so the native
      side sees each component in its own place. */
  lemma NativePriceArgsFollowFlagBits(o: Ohlc)
    ensures |NativePriceArgs(o)| == |NATIVE_PRICE_ORDER| == 6
    ensures forall k :: 0 <= k < 6 ==> NativePriceArgs(o)[k] == Component(o, NATIVE_PRICE_ORDER[k])
    ensures forall k :: 0 <= k < 6 ==> CapabilityFlag(NATIVE_PRICE_ORDER[k]) == 1 << k
  {
  }

  // ---------------------------------------------------------------------
  // The native side: a slot table per function and four oracles.

  /** One input slot of a native function. */
  datatype InputSlot = InputSlot(kind: IP.InputType, flags: IP.InputFlags)

  /** The slots of a native function: the default of each optional
      parameter (whose variant is the slot's kind), the input slots and the
      kind of each output slot. */
  datatype SlotTable = SlotTable(params: seq<OptInputParam>, inputs: seq<InputSlot>, outputs: seq<OP.OutputType>)

  /** A C `int`, the type of the native lookback. */
  type I32 = x: int | -0x8000_0000 <= x < 0x8000_0000

  /** The number of `usize` values on the 64-bit targets the crate is built
      for. */
  const USIZE_MODULUS: int := 0x1_0000_0000_0000_0000

  /** `v as usize` for a C `int`: a non-negative value keeps its value, and
      a negative one is sign-extended, landing above every `int`. */
  function AsUsize(v: I32): (u: nat)
    ensures u < USIZE_MODULUS
    ensures v >= 0 <==> u == v
    ensures v < 0 ==> u >= USIZE_MODULUS - 0x8000_0000 && u - v == USIZE_MODULUS
  {
    if v < 0 then v + USIZE_MODULUS else v
  }

  datatype NativeCalls = NativeCalls(
    /** `TA_ParamHolderAlloc(handle)`'s return code. */
    allocCode: Handle -> RetCode,
    /** The slot table `TA_ParamHolderAlloc` builds for a handle. */
    slots: Handle -> SlotTable,
    /** `TA_GetLookback` for the optional parameters currently bound. */
    lookback: (Handle, seq<OptInputParam>) -> (RetCode, I32),
    /** `TA_CallFunc`'s return code once every slot is bound: the function's
        own verdict on its settings, its inputs and the range. */
    callCode: (Handle, seq<OptInputParam>, seq<InputParam>, nat, nat) -> RetCode,
    /** Element `k` of real output slot `j` of the function's result. */
    realOutput: (Handle, seq<OptInputParam>, seq<InputParam>, nat, nat) -> real,
    /** Element `k` of integer output slot `j` of the function's result. */
    integerOutput: (Handle, seq<OptInputParam>, seq<InputParam>, nat, nat) -> int)

  predicate SameKind(a: OptInputParam, b: OptInputParam) { a.RealParam? == b.RealParam? }

  /** Whether every component the flags ask for is present. */
  predicate PriceComponentsPresent(o: Ohlc, flags: IP.InputFlags)
  {
    forall k :: 0 <= k < 6 ==>
      IP.Contains(flags, CapabilityFlag(NATIVE_PRICE_ORDER[k])) ==> NativePriceArgs(o)[k].Some?
  }

  /** `TA_SetOptInputParamInteger` / `TA_SetOptInputParamReal`. */
  function OptBindCode(table: SlotTable, position: nat, p: OptInputParam): RetCode
  {
    if position >= |table.params| then BadParamCode
    else if !SameKind(p, table.params[position]) then InvalidParamHolderType
    else Success
  }

  /** `TA_SetInputParamRealPtr` / `...IntegerPtr` / `...PricePtr`. */
  function InputBindCode(table: SlotTable, position: nat, p: InputParam): RetCode
  {
    if position >= |table.inputs| then BadParamCode
    else
      var slot := table.inputs[position];
      match p
      case RealInput(_) => if slot.kind == IP.Real then Success else InvalidParamHolderType
      case IntegerInput(_) => if slot.kind == IP.Integer then Success else InvalidParamHolderType
      case OhlcInput(o) =>
        if slot.kind != IP.Price then InvalidParamHolderType
        else if PriceComponentsPresent(o, slot.flags) then Success
        else BadParamCode
  }

  /** `TA_SetOutputParamRealPtr` / `...IntegerPtr`. */
  function OutputBindCode(table: SlotTable, position: nat, p: OutputParam): RetCode
  {
    if position >= |table.outputs| then BadParamCode
    else if p.RealOutput? != (table.outputs[position] == OP.Real) then InvalidParamHolderType
    else Success
  }

  /** A price input is accepted exactly when every component its flags ask
      for is present, whatever the components it does not ask for. */
  lemma PriceBindNeedsFlaggedComponents(table: SlotTable, position: nat, o: Ohlc)
    requires position < |table.inputs| && table.inputs[position].kind == IP.Price
    ensures InputBindCode(table, position, OhlcInput(o)) == Success <==>
      forall c :: IP.Contains(table.inputs[position].flags, CapabilityFlag(c)) ==> Component(o, c).Some?
  {
    NativePriceArgsFollowFlagBits(o);
    var flags := table.inputs[position].flags;
    if PriceComponentsPresent(o, flags) {
      forall c | IP.Contains(flags, CapabilityFlag(c)) ensures Component(o, c).Some? {
        var k := match c
          case Open => 0 case High => 1 case Low => 2
          case Close => 3 case Volume => 4 case OpenInterest => 5;
        assert NATIVE_PRICE_ORDER[k] == c;
      }
    }
  }

  // ---------------------------------------------------------------------
  // The output window.

  predicate InRange(i: int, lo: int, hi: int) { lo <= i <= hi }

  /** The indices from `lo` to `hi`, both included. */
  function Window(lo: int, hi: int): set<int>
  {
    set i | lo <= i <= hi && InRange(i, lo, hi)
  }

  /** Whether a call over `start ..= end` produces a value at index `i`:
      `i` is in the range and at or after the lookback. */
  predicate Producible(i: int, lookback: nat, start: nat, end: nat)
  {
    start <= i <= end && lookback <= i
  }

  lemma {:induction false} WindowSize(lo: int, hi: int)
    ensures |Window(lo, hi)| == if lo > hi then 0 else hi - lo + 1
    decreases hi - lo
  {
    if lo > hi {
      assert Window(lo, hi) == {};
    } else {
      WindowSize(lo, hi - 1);
      assert Window(lo, hi) == Window(lo, hi - 1) + {hi};
    }
  }

  /** The size computed by `required_output_size` for a given lookback: the
      number of indices of `start ..= end` at or after the lookback, i.e.
      the indices for which the function can produce a value. */
  function OutputSize(lookback: nat, start: nat, end: nat): (n: nat)
    ensures n == |set i | start <= i <= end && Producible(i, lookback, start, end)|
  {
    var temp := Max(lookback, start);
    assert (set i | start <= i <= end && Producible(i, lookback, start, end)) == Window(temp, end);
    WindowSize(temp, end);
    if temp > end then 0 else end - temp + 1
  }

  /** The window never holds more than `end - start + 1` indices, and it
      does not shrink when `end` grows. */
  lemma OutputSizeBoundedAndMonotone(lookback: nat, start: nat, end: nat, end2: nat)
    requires end <= end2
    ensures OutputSize(lookback, start, end) <= if start > end then 0 else end - start + 1
    ensures OutputSize(lookback, start, end) <= OutputSize(lookback, start, end2)
  {
  }

  /** A setting the function rejects makes `TA_GetLookback` report -1; cast
      `as usize`, it lies past every index a caller can pass, so the window
      is empty and `required_output_size` is 0. */
  lemma NegativeLookbackGivesEmptyWindow(lookback: I32, start: nat, end: nat)
    requires lookback < 0 && end < USIZE_MODULUS - 0x8000_0000
    ensures OutputSize(AsUsize(lookback), start, end) == 0
  {
  }

  /** The output buffer a caller allocates for `0 ..= n` holds every element
      a call over `0 ..= m` can produce, for any `m <= n`: this is what makes
      sizing by the longest input and invoking up to the shortest one safe. */
  lemma BufferCoversInvokeRange(lookback: nat, m: nat, n: nat)
    requires m <= n
    ensures OutputSize(lookback, 0, m) <= OutputSize(lookback, 0, n)
    ensures OutputSize(lookback, 0, m) <= m + 1
  {
    OutputSizeBoundedAndMonotone(lookback, 0, m, n);
  }

  // ---------------------------------------------------------------------
  // Output buffers and their contents.

  datatype Values = RealValues(reals: seq<real>) | IntegerValues(ints: seq<int>)

  function BufferOf(p: OutputParam): object
  {
    match p
    case RealOutput(a) => a
    case IntegerOutput(a) => a
  }

  function BufferLength(p: OutputParam): nat
  {
    match p
    case RealOutput(a) => a.Length
    case IntegerOutput(a) => a.Length
  }

  ghost function Contents(p: OutputParam): Values
    reads BufferOf(p)
  {
    match p
    case RealOutput(a) => RealValues(a[..])
    case IntegerOutput(a) => IntegerValues(a[..])
  }

  /** What output slot `j` holds after a call that produced `count`
      elements: the function's values first, the old contents after. */
  function Produced(before: Values, count: nat, lib: NativeCalls, h: Handle,
                    params: seq<OptInputParam>, ins: seq<InputParam>, j: nat): Values
  {
    match before
    case RealValues(xs) =>
      RealValues(seq(|xs|, k requires 0 <= k < |xs| => if k < count then lib.realOutput(h, params, ins, j, k) else xs[k]))
    case IntegerValues(ns) =>
      IntegerValues(seq(|ns|, k requires 0 <= k < |ns| => if k < count then lib.integerOutput(h, params, ins, j, k) else ns[k]))
  }

  /** The number of elements a native call reads from every bound series:
      it reads indices `start ..= end`. */
  predicate SeriesLongerThan(p: InputParam, end: nat)
  {
    match p
    case RealInput(xs) => |xs| > end
    case IntegerInput(ns) => |ns| > end
    case OhlcInput(o) => forall c :: Component(o, c).Some? ==> |Component(o, c).value| > end
  }

  // ---------------------------------------------------------------------
  // The call context.

  class ParamHolder {
    const handle: Handle
    const lib: NativeCalls
    /** The optional parameters currently bound (initially the defaults). */
    var params: seq<OptInputParam>
    /** The input series bound per slot. */
    var inputs: seq<Option<InputParam>>
    /** The output buffers bound per slot. */
    var outputs: seq<Option<OutputParam>>
    /** Whether `TA_ParamHolderFree` has run. */
    var freed: bool

    /** The native slot table of this context's function. */
    function Table(): SlotTable
    {
      lib.slots(handle)
    }

    ghost predicate Valid()
      reads this
    {
      && |params| == |Table().params|
      && |inputs| == |Table().inputs|
      && |outputs| == |Table().outputs|
      && forall i :: 0 <= i < |params| ==> SameKind(params[i], Table().params[i])
    }

    /** The objects a call may write: the bound output buffers. */
    function Buffers(): set<object>
      reads this
    {
      set j | 0 <= j < |outputs| && outputs[j].Some? :: BufferOf(outputs[j].value)
    }

    constructor (lib: NativeCalls, handle: Handle)
      ensures this.lib == lib && this.handle == handle && Valid() && !freed
      ensures params == lib.slots(handle).params
      ensures |inputs| == |lib.slots(handle).inputs| && forall i :: 0 <= i < |inputs| ==> inputs[i].None?
      ensures |outputs| == |lib.slots(handle).outputs| && forall j :: 0 <= j < |outputs| ==> outputs[j].None?
    {
      this.lib := lib;
      this.handle := handle;
      params := lib.slots(handle).params;
      inputs := seq(|lib.slots(handle).inputs|, _ => None);
      outputs := seq(|lib.slots(handle).outputs|, _ => None);
      freed := false;
    }

    /** `TryFrom<FuncHandle> for ParamHolder`: a fresh context with every
      optional parameter at its default and nothing else bound, or the
      allocation's error. */
    static method Alloc(lib: NativeCalls, handle: Handle) returns (r: Result<ParamHolder>)
      ensures r.Ok? <==> lib.allocCode(handle) == Success
      ensures r.Err? ==> r.error == FromRetCode(lib.allocCode(handle))
      ensures r.Ok? ==> fresh(r.value) && r.value.Valid() && !r.value.freed
      ensures r.Ok? ==> r.value.lib == lib && r.value.handle == handle
      ensures r.Ok? ==> r.value.params == lib.slots(handle).params
      ensures r.Ok? ==> forall i :: 0 <= i < |r.value.inputs| ==> r.value.inputs[i].None?
      ensures r.Ok? ==> forall j :: 0 <= j < |r.value.outputs| ==> r.value.outputs[j].None?
    {
      var code := lib.allocCode(handle);
      if code != Success {
        return Err(FromRetCode(code));
      }
      var holder := new ParamHolder(lib, handle);
      return Ok(holder);
    }

    /** `set_param`: binds an optional parameter; any native refusal is
      `BadParam` and leaves the context as it was. */
    method SetParam(position: nat, p: OptInputParam) returns (r: Result<()>)
      requires Valid() && !freed
      modifies this
      ensures Valid() && !freed
      ensures r.Ok? <==> OptBindCode(Table(), position, p) == Success
      ensures r.Err? ==> r.error == BadParam
      ensures params == if r.Ok? then old(params)[position := p] else old(params)
      ensures inputs == old(inputs) && outputs == old(outputs)
    {
      var code := OptBindCode(Table(), position, p);
      if code != Success {
        return Err(BadParam);
      }
      params := params[position := p];
      return Ok(());
    }

    /** `set_input`: binds an input series; any native refusal is
      `BadParam` and leaves the context as it was. */
    method SetInput(position: nat, p: InputParam) returns (r: Result<()>)
      requires Valid() && !freed
      modifies this
      ensures Valid() && !freed
      ensures r.Ok? <==> InputBindCode(Table(), position, p) == Success
      ensures r.Err? ==> r.error == BadParam
      ensures inputs == if r.Ok? then old(inputs)[position := Some(p)] else old(inputs)
      ensures params == old(params) && outputs == old(outputs)
    {
      var code := InputBindCode(Table(), position, p);
      if code != Success {
        return Err(BadParam);
      }
      inputs := inputs[position := Some(p)];
      return Ok(());
    }

    /** `set_output`: binds an output buffer; any native refusal is
      `BadParam` and leaves the context as it was. */
    method SetOutput(position: nat, p: OutputParam) returns (r: Result<()>)
      requires Valid() && !freed
      modifies this
      ensures Valid() && !freed
      ensures r.Ok? <==> OutputBindCode(Table(), position, p) == Success
      ensures r.Err? ==> r.error == BadParam
      ensures outputs == if r.Ok? then old(outputs)[position := Some(p)] else old(outputs)
      ensures params == old(params) && inputs == old(inputs)
    {
      var code := OutputBindCode(Table(), position, p);
      if code != Success {
        return Err(BadParam);
      }
      outputs := outputs[position := Some(p)];
      return Ok(());
    }

    /** `lookback`: the native lookback for the parameters bound now, cast
      `as usize`, or `None` when the native call fails. */
    function Lookback(): (r: Option<nat>)
      reads this
      ensures r.Some? <==> lib.lookback(handle, params).0 == Success
      ensures r.Some? ==> r.value == AsUsize(lib.lookback(handle, params).1)
    {
      var (code, lookback) := lib.lookback(handle, params);
      if code == Success then Some(AsUsize(lookback)) else None
    }

    /** `required_output_size(start, end)`: `None` exactly when the lookback
      is unavailable, else the number of indices of `start ..= end` the
      function can produce a value for. */
    function RequiredOutputSize(start: nat, end: nat): (r: Option<nat>)
      reads this
      ensures r.None? <==> Lookback().None?
      ensures r.Some? ==> r.value == |set i | start <= i <= end && Producible(i, Lookback().value, start, end)|
      ensures r.Some? ==> r.value == (if Max(Lookback().value, start) > end then 0
                                      else end - Max(Lookback().value, start) + 1)
    {
      match Lookback()
      case None => None
      case Some(lookback) => Some(OutputSize(lookback, start, end))
    }

    /** Every input slot is bound. */
    predicate AllInputsBound()
      reads this
    {
      forall i :: 0 <= i < |inputs| ==> inputs[i].Some?
    }

    predicate AllOutputsBound()
      reads this
    {
      forall j :: 0 <= j < |outputs| ==> outputs[j].Some?
    }

    /** The bound input series, in slot order. */
    function BoundInputs(): seq<InputParam>
      reads this
      requires AllInputsBound()
    {
      seq(|inputs|, i requires 0 <= i < |inputs| && AllInputsBound() reads this => inputs[i].value)
    }

    /** The outcome of a call over `start ..= end`, modelled after the native
      `TA_CallFunc`: unbound inputs, then unbound outputs, then an empty
      range, then a failing lookback are refused in that order, and then the
      function's own return code decides; on success, the begin index and
      the number of elements produced. */
    function CallOutcome(start: nat, end: nat): (r: Result<(nat, nat)>)
      reads this
      ensures r.Ok? <==> && AllInputsBound() && AllOutputsBound() && start <= end && Lookback().Some?
                         && lib.callCode(handle, params, BoundInputs(), start, end) == Success
      ensures r.Err? && AllInputsBound() && AllOutputsBound() && start <= end && Lookback().Some? ==>
                r.error == FromRetCode(lib.callCode(handle, params, BoundInputs(), start, end))
      ensures r.Ok? ==> RequiredOutputSize(start, end) == Some(r.value.1)
      ensures r.Ok? ==> r.value.1 <= end - start + 1
      ensures r.Ok? && r.value.1 > 0 ==>
                (r.value.0 == Max(Lookback().value, start) && r.value.0 + r.value.1 == end + 1)
    {
      if !AllInputsBound() then Err(FromRetCode(InputNotAllInitialize))
      else if !AllOutputsBound() then Err(FromRetCode(OutputNotAllInitialize))
      else if end < start then Err(FromRetCode(OutOfRangeEndIndex))
      else
        match Lookback()
        case None => Err(FromRetCode(lib.lookback(handle, params).0))
        case Some(lookback) =>
          var code := lib.callCode(handle, params, BoundInputs(), start, end);
          if code != Success then Err(FromRetCode(code))
          else
            var count := OutputSize(lookback, start, end);
            Ok((if count > 0 then Max(lookback, start) else 0, count))
    }

    /** No two bound output slots share a buffer. */
    predicate BuffersDistinct()
      reads this
    {
      forall i, j :: 0 <= i < j < |outputs| && outputs[i].Some? && outputs[j].Some? ==>
        BufferOf(outputs[i].value) != BufferOf(outputs[j].value)
    }

    /** `params.call(start, end)`: runs the function over `start ..= end`,
      writing the elements produced to the front of every bound buffer.
      The native side neither checks the buffers' sizes nor the series'
      lengths: the caller must provide both. */
    method Call(start: nat, end: nat) returns (r: Result<(nat, nat)>)
      requires Valid() && !freed && BuffersDistinct()
      requires forall i :: 0 <= i < |inputs| && inputs[i].Some? ==> SeriesLongerThan(inputs[i].value, end)
      requires RequiredOutputSize(start, end).Some? ==>
        forall j :: 0 <= j < |outputs| && outputs[j].Some? ==>
          BufferLength(outputs[j].value) >= RequiredOutputSize(start, end).value
      modifies Buffers()
      ensures unchanged(this)
      ensures r == CallOutcome(start, end)
      ensures r.Err? ==> forall j :: 0 <= j < |outputs| && outputs[j].Some? ==>
        Contents(outputs[j].value) == old(Contents(outputs[j].value))
      ensures r.Ok? ==> forall j :: 0 <= j < |outputs| && outputs[j].Some? ==>
        Contents(outputs[j].value)
          == Produced(old(Contents(outputs[j].value)), r.value.1, lib, handle, params, BoundInputs(), j)
    {
      r := CallOutcome(start, end);
      if r.Err? {
        return;
      }
      var count := r.value.1;
      var ins := BoundInputs();
      for j := 0 to |outputs|
        invariant forall i :: 0 <= i < j && outputs[i].Some? ==>
          Contents(outputs[i].value) == Produced(old(Contents(outputs[i].value)), count, lib, handle, params, ins, i)
        invariant forall i :: j <= i < |outputs| && outputs[i].Some? ==>
          Contents(outputs[i].value) == old(Contents(outputs[i].value))
      {
        match outputs[j]
        case None =>
        case Some(RealOutput(a)) =>
          assert BufferOf(outputs[j].value) in Buffers();
          forall k | 0 <= k < count {
            a[k] := lib.realOutput(handle, params, ins, j, k);
          }
        case Some(IntegerOutput(a)) =>
          assert BufferOf(outputs[j].value) in Buffers();
          forall k | 0 <= k < count {
            a[k] := lib.integerOutput(handle, params, ins, j, k);
          }
      }
    }

    /** `Drop`: `TA_ParamHolderFree` runs once; nothing else changes. */
    method Free()
      requires !freed
      modifies this
      ensures freed
      ensures params == old(params) && inputs == old(inputs) && outputs == old(outputs)
    {
      freed := true;
    }
  }

  // ---------------------------------------------------------------------
  // The scenarios the crate's own tests exercise.

  /** A BBANDS-shaped function (one real input, four optional parameters,
      the first an integer): input slot 0 and optional slot 0 bind, input
      slot 1 and optional slot 10 are refused with `BadParam`. */
  method BbandsBindingExample(lib: NativeCalls, h: Handle)
    returns (input0: Result<()>, input1: Result<()>, param0: Result<()>, param10: Result<()>)
    requires lib.allocCode(h) == Success
    requires |lib.slots(h).inputs| == 1 && lib.slots(h).inputs[0].kind == IP.Real
    requires |lib.slots(h).params| == 4 && lib.slots(h).params[0].IntegerParam?
    ensures input0.Ok? && input1 == Err(BadParam)
    ensures param0.Ok? && param10 == Err(BadParam)
  {
    var alloc := ParamHolder.Alloc(lib, h);
    var holder := alloc.value;
    input0 := holder.SetInput(0, RealInput([1.0, 2.0, 3.0]));
    input1 := holder.SetInput(1, RealInput([1.0, 2.0, 3.0]));
    param0 := holder.SetParam(0, IntegerParam(1));
    param10 := holder.SetParam(10, IntegerParam(1));
    holder.Free();
  }

  /** A TYPPRICE-shaped function (one real output): output slot 0 binds,
      output slot 1 is refused with `BadParam`. */
  method TypPriceOutputExample(lib: NativeCalls, h: Handle) returns (output0: Result<()>, output1: Result<()>)
    requires lib.allocCode(h) == Success
    requires lib.slots(h).outputs == [OP.Real]
    ensures output0.Ok? && output1 == Err(BadParam)
  {
    var alloc := ParamHolder.Alloc(lib, h);
    var holder := alloc.value;
    var data := new real[3];
    output0 := holder.SetOutput(0, RealOutput(data));
    output1 := holder.SetOutput(1, RealOutput(data));
    holder.Free();
  }

  /** An SMA-shaped function (one integer period defaulting to 30, lookback
      one less than the period): the lookback is 29 before and 4 after
      binding a period of 5, the last bound value deciding it. */
  method SmaLookbackExample(lib: NativeCalls, h: Handle) returns (before: Option<nat>, after: Option<nat>)
    requires lib.allocCode(h) == Success
    requires lib.slots(h).params == [IntegerParam(30)]
    requires lib.lookback(h, [IntegerParam(30)]) == (Success, 29)
    requires lib.lookback(h, [IntegerParam(5)]) == (Success, 4)
    ensures before == Some(29) && after == Some(4)
  {
    var alloc := ParamHolder.Alloc(lib, h);
    var holder := alloc.value;
    before := holder.Lookback();
    var _ := holder.SetParam(0, IntegerParam(5));
    assert holder.params == [IntegerParam(5)];
    after := holder.Lookback();
    holder.Free();
  }
}
