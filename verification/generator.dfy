/** The decisions the build script takes when it turns the function catalog
    into one Rust module per group and one struct with a `calculate` method
    per function. The generated source text is not modelled; each
    `generate_*` function yields the structure of what it emits. */
module Generator {
  import opened TaTypes
  import opened FuncInfos
  import opened NameMangling
  import opened CallerInputs
  import IP = InputParams
  import OI = OptInputParams
  import OP = OutputParams

  /** The scalar Rust types the generator emits: `i32` and `f64`. */
  datatype ScalarType = I32 | F64

  /** The bound a generic input parameter gets besides `Length`. */
  datatype InputBound =
    | SliceOf(elem: ScalarType)              // `AsRef<[i32]>` / `AsRef<[f64]>`
    | Capabilities(caps: seq<Capability>)    // `Open + Low + ...`

  /** `X: Length + bound`. */
  datatype GenericParam = GenericParam(letter: char, bound: InputBound)

  /** `ident: X`. */
  datatype Argument = Argument(ident: string, letter: char)

  /** A struct member for an optional parameter (its type only). */
  datatype Member = Member(ident: string, ty: ScalarType)

  /** `params.set_param(position, OptInputParam::Kind(self.member))?`. */
  datatype ParamBind = ParamBind(position: nat, kind: OI.OptInputType, member: string)

  /** One field of the generated `Ohlc` literal. */
  datatype ComponentArg = Accessor(ident: string, cap: Capability) | NullPointer

  /** The value handed to `set_input`. */
  datatype InputValue =
    | SlicePointer(ident: string)
    | PriceComponents(open: ComponentArg, low: ComponentArg, high: ComponentArg,
                      close: ComponentArg, volume: ComponentArg, openInterest: ComponentArg)

  /** `params.set_input(position, InputParam::Kind(value))?`. */
  datatype InputBind = InputBind(position: nat, kind: IP.InputType, value: InputValue)

  /** `let ident = vec![0; output_size]; ... params.set_output(position, OutputParam::Kind(..))?`. */
  datatype OutputBind = OutputBind(position: nat, ident: string, kind: OP.OutputType)

  /** The `Ok` type of `calculate`. */
  datatype ReturnType = NoOutput | Single(elem: ScalarType) | Tuple(elems: seq<ScalarType>)

  /** `params.call(0, end_idx)?` followed by the wrapped buffers, in a tuple
      when `tupled`. */
  datatype CallAndReturn = CallAndReturn(wrapped: seq<string>, tupled: bool)

  /** Everything `generate_indicator_calculate_func` puts together. */
  datatype CalculateFunc = CalculateFunc(
    generics: seq<GenericParam>,
    arguments: seq<Argument>,
    paramBinds: seq<ParamBind>,
    inputBinds: seq<InputBind>,
    lengthArgs: seq<string>,
    outputBinds: seq<OutputBind>,
    returnType: ReturnType,
    callAndReturn: CallAndReturn)

  /** One indicator struct: its name, the `ID` it looks itself up by, its
      members and its `calculate`. */
  datatype FuncStruct = FuncStruct(ident: string, id: string, members: seq<Member>, calculate: CalculateFunc)

  /** One generated group module, with the structs of its functions keyed
      by function name. */
  datatype GroupModule = GroupModule(ident: string, structs: map<string, FuncStruct>)

  // ---------------------------------------------------------------------
  // Per-element decisions.

  function OptScalar(kind: OI.OptInputType): ScalarType
  {
    match kind
    case Integer => I32
    case Real => F64
  }

  function OutputScalar(kind: OP.OutputType): ScalarType
  {
    match kind
    case Integer => I32
    case Real => F64
  }

  /** The member for an optional parameter. */
  function MemberOf(p: OI.OptInput): Member
  {
    Member(RustifyName(p.displayName), OptScalar(p.kind))
  }

  /** The `set_param` for an optional parameter. */
  function ParamBindOf(p: OI.OptInput): ParamBind
  {
    ParamBind(p.position, p.kind, RustifyName(p.displayName))
  }

  /** The order in which a generated capability bound lists components. */
  const BOUND_ORDER: seq<Capability> := [Open, Low, High, Close, Volume, OpenInterest]

  function Rank(c: Capability): nat
  {
    match c
    case Open => 0
    case Low => 1
    case High => 2
    case Close => 3
    case Volume => 4
    case OpenInterest => 5
  }

  /** Whether `flags` asks for capability `c`. */
  predicate Has(flags: bv32, c: Capability)
  {
    IP.Contains(flags, CapabilityFlag(c))
  }

  /** `Has(flags, _)` as a value. */
  function Asks(flags: bv32): Capability -> bool
  {
    c => Has(flags, c)
  }

  /** The capabilities of `cs` that are asked for, in the order of `cs`. */
  function Kept(cs: seq<Capability>, asked: Capability -> bool): seq<Capability>
  {
    if |cs| == 0 then []
    else Kept(cs[..|cs| - 1], asked) + (if asked(cs[|cs| - 1]) then [cs[|cs| - 1]] else [])
  }

  /** The bound of a price input: the capabilities its flags ask for. */
  function PriceBound(flags: bv32): seq<Capability>
  {
    Kept(BOUND_ORDER, Asks(flags))
  }

  /** `generate_input_type`, as a value. */
  function InputBoundOf(input: IP.Input): InputBound
  {
    match input.kind
    case Integer => SliceOf(I32)
    case Real => SliceOf(F64)
    case Price => Capabilities(PriceBound(input.flags))
  }

  function ComponentArgOf(ident: string, flags: bv32, c: Capability): ComponentArg
  {
    if Has(flags, c) then Accessor(ident, c) else NullPointer
  }

  /** The value a generated `calculate` passes for an input. */
  function InputValueOf(input: IP.Input): InputValue
  {
    var ident := RustifyInput(input.name);
    match input.kind
    case Integer => SlicePointer(ident)
    case Real => SlicePointer(ident)
    case Price =>
      PriceComponents(
        ComponentArgOf(ident, input.flags, Open),
        ComponentArgOf(ident, input.flags, Low),
        ComponentArgOf(ident, input.flags, High),
        ComponentArgOf(ident, input.flags, Close),
        ComponentArgOf(ident, input.flags, Volume),
        ComponentArgOf(ident, input.flags, OpenInterest))
  }

  function InputBindOf(input: IP.Input): InputBind
  {
    InputBind(input.position, input.kind, InputValueOf(input))
  }

  function OutputBindOf(output: OP.Output): OutputBind
  {
    OutputBind(output.position, RustifyInput(output.name), output.kind)
  }

  /** The generic parameter names come from the range `'A'..'Z'`, which
      excludes `'Z'`: 25 letters, `A` to `Y`. */
  const LETTER_COUNT: nat := 25

  function Letter(i: nat): char
    requires i < LETTER_COUNT
  {
    ('A' as int + i) as char
  }

  function Min(a: int, b: int): int { if a <= b then a else b }

  /** What the build script emits for one function. */
  function CalculateFuncOf(info: FuncInfo): CalculateFunc
  {
    var n := Min(|info.inputs|, LETTER_COUNT);
    CalculateFunc(
      seq(n, i requires 0 <= i < n => GenericParam(Letter(i), InputBoundOf(info.inputs[i]))),
      seq(n, i requires 0 <= i < n => Argument(RustifyInput(info.inputs[i].name), Letter(i))),
      seq(|info.params|, i requires 0 <= i < |info.params| => ParamBindOf(info.params[i])),
      seq(|info.inputs|, i requires 0 <= i < |info.inputs| => InputBindOf(info.inputs[i])),
      seq(|info.inputs|, i requires 0 <= i < |info.inputs| => RustifyInput(info.inputs[i].name)),
      seq(|info.outputs|, j requires 0 <= j < |info.outputs| => OutputBindOf(info.outputs[j])),
      ReturnTypeOf(info.outputs),
      CallAndReturn(seq(|info.outputs|, j requires 0 <= j < |info.outputs| => RustifyInput(info.outputs[j].name)),
                    |info.outputs| > 1))
  }

  function ReturnTypeOf(outputs: seq<OP.Output>): ReturnType
  {
    if |outputs| > 1 then Tuple(seq(|outputs|, j requires 0 <= j < |outputs| => OutputScalar(outputs[j].kind)))
    else if |outputs| == 1 then Single(OutputScalar(outputs[0].kind))
    else NoOutput
  }

  function FuncStructOf(info: FuncInfo): FuncStruct
  {
    FuncStruct(info.camelCaseName, info.name,
               seq(|info.params|, i requires 0 <= i < |info.params| => MemberOf(info.params[i])),
               CalculateFuncOf(info))
  }

  function GroupModuleOf(group: string, indicators: map<string, FuncInfo>): GroupModule
  {
    GroupModule(RustifyName(group), map name | name in indicators :: FuncStructOf(indicators[name]))
  }

  // ---------------------------------------------------------------------
  // The generator's loops.

  /** `generate_indicator_struct_members`. */
  method GenerateIndicatorStructMembers(info: FuncInfo) returns (members: seq<Member>)
    ensures |members| == |info.params|
    ensures forall i :: 0 <= i < |members| ==> members[i] == MemberOf(info.params[i])
  {
    members := [];
    for i := 0 to |info.params|
      invariant |members| == i
      invariant forall k :: 0 <= k < i ==> members[k] == MemberOf(info.params[k])
    {
      var param := info.params[i];
      var memberType := if param.kind == OI.Integer then I32 else F64;
      members := members + [Member(RustifyName(param.displayName), memberType)];
    }
  }

  /** `generate_opt_input_params`. */
  method GenerateOptInputParams(info: FuncInfo) returns (binds: seq<ParamBind>)
    ensures |binds| == |info.params|
    ensures forall i :: 0 <= i < |binds| ==> binds[i] == ParamBindOf(info.params[i])
  {
    binds := [];
    for i := 0 to |info.params|
      invariant |binds| == i
      invariant forall k :: 0 <= k < i ==> binds[k] == ParamBindOf(info.params[k])
    {
      var param := info.params[i];
      binds := binds + [ParamBind(param.position, param.kind, RustifyName(param.displayName))];
    }
  }

  /** `generate_input_type`: a slice bound for a series, and for a price
      input the capabilities of its flags pushed in a fixed order. */
  method GenerateInputType(input: IP.Input) returns (bound: InputBound)
    ensures bound == InputBoundOf(input)
  {
    match input.kind
    case Integer => bound := SliceOf(I32);
    case Real => bound := SliceOf(F64);
    case Price =>
      var flags := input.flags;
      var bounds: seq<Capability> := [];
      if IP.Contains(flags, IP.OPEN) { bounds := bounds + [Open]; }
      assert bounds == IfAsked(IP.Contains(flags, IP.OPEN), Open);
      if IP.Contains(flags, IP.LOW) { bounds := bounds + [Low]; }
      assert bounds == IfAsked(IP.Contains(flags, IP.OPEN), Open) + IfAsked(IP.Contains(flags, IP.LOW), Low);
      if IP.Contains(flags, IP.HIGH) { bounds := bounds + [High]; }
      assert bounds == IfAsked(IP.Contains(flags, IP.OPEN), Open) + IfAsked(IP.Contains(flags, IP.LOW), Low) + IfAsked(IP.Contains(flags, IP.HIGH), High);
      if IP.Contains(flags, IP.CLOSE) { bounds := bounds + [Close]; }
      assert bounds == IfAsked(IP.Contains(flags, IP.OPEN), Open) + IfAsked(IP.Contains(flags, IP.LOW), Low) + IfAsked(IP.Contains(flags, IP.HIGH), High) + IfAsked(IP.Contains(flags, IP.CLOSE), Close);
      if IP.Contains(flags, IP.VOLUME) { bounds := bounds + [Volume]; }
      assert bounds == IfAsked(IP.Contains(flags, IP.OPEN), Open) + IfAsked(IP.Contains(flags, IP.LOW), Low) + IfAsked(IP.Contains(flags, IP.HIGH), High) + IfAsked(IP.Contains(flags, IP.CLOSE), Close) + IfAsked(IP.Contains(flags, IP.VOLUME), Volume);
      if IP.Contains(flags, IP.OPEN_INTEREST) { bounds := bounds + [OpenInterest]; }
      assert bounds == IfAsked(IP.Contains(flags, IP.OPEN), Open) + IfAsked(IP.Contains(flags, IP.LOW), Low) + IfAsked(IP.Contains(flags, IP.HIGH), High) + IfAsked(IP.Contains(flags, IP.CLOSE), Close) + IfAsked(IP.Contains(flags, IP.VOLUME), Volume) + IfAsked(IP.Contains(flags, IP.OPEN_INTEREST), OpenInterest);
      PriceBoundPushes(flags);
      bound := Capabilities(bounds);
  }

  /** `generate_input_params`. */
  method GenerateInputParams(info: FuncInfo) returns (binds: seq<InputBind>)
    ensures |binds| == |info.inputs|
    ensures forall i :: 0 <= i < |binds| ==> binds[i] == InputBindOf(info.inputs[i])
  {
    binds := [];
    for i := 0 to |info.inputs|
      invariant |binds| == i
      invariant forall k :: 0 <= k < i ==> binds[k] == InputBindOf(info.inputs[k])
    {
      var input := info.inputs[i];
      var ident := RustifyInput(input.name);
      var value;
      match input.kind {
        case Integer => value := SlicePointer(ident);
        case Real => value := SlicePointer(ident);
        case Price =>
          var flags := input.flags;
          var open := if IP.Contains(flags, IP.OPEN) then Accessor(ident, Open) else NullPointer;
          var low := if IP.Contains(flags, IP.LOW) then Accessor(ident, Low) else NullPointer;
          var high := if IP.Contains(flags, IP.HIGH) then Accessor(ident, High) else NullPointer;
          var close := if IP.Contains(flags, IP.CLOSE) then Accessor(ident, Close) else NullPointer;
          var volume := if IP.Contains(flags, IP.VOLUME) then Accessor(ident, Volume) else NullPointer;
          var openInterest := if IP.Contains(flags, IP.OPEN_INTEREST) then Accessor(ident, OpenInterest) else NullPointer;
          value := PriceComponents(open, low, high, close, volume, openInterest);
      }
      binds := binds + [InputBind(input.position, input.kind, value)];
    }
  }

  /** `generate_output_params`. */
  method GenerateOutputParams(info: FuncInfo) returns (binds: seq<OutputBind>)
    ensures |binds| == |info.outputs|
    ensures forall j :: 0 <= j < |binds| ==> binds[j] == OutputBindOf(info.outputs[j])
  {
    binds := [];
    for j := 0 to |info.outputs|
      invariant |binds| == j
      invariant forall k :: 0 <= k < j ==> binds[k] == OutputBindOf(info.outputs[k])
    {
      var output := info.outputs[j];
      binds := binds + [OutputBind(output.position, RustifyInput(output.name), output.kind)];
    }
  }

  /** `generate_calculate_inputs`: inputs zipped with the letters, so at
      most as many generics and arguments as there are letters. */
  method GenerateCalculateInputs(info: FuncInfo) returns (bounds: seq<GenericParam>, arguments: seq<Argument>)
    ensures |bounds| == |arguments| == Min(|info.inputs|, LETTER_COUNT)
    ensures forall k :: 0 <= k < |bounds| ==> bounds[k] == GenericParam(Letter(k), InputBoundOf(info.inputs[k]))
    ensures forall k :: 0 <= k < |arguments| ==> arguments[k] == Argument(RustifyInput(info.inputs[k].name), Letter(k))
  {
    var n := Min(|info.inputs|, LETTER_COUNT);
    bounds, arguments := [], [];
    for i := 0 to n
      invariant |bounds| == i && |arguments| == i
      invariant forall k :: 0 <= k < i ==> bounds[k] == GenericParam(Letter(k), InputBoundOf(info.inputs[k]))
      invariant forall k :: 0 <= k < i ==> arguments[k] == Argument(RustifyInput(info.inputs[k].name), Letter(k))
    {
      var input := info.inputs[i];
      var letter := Letter(i);
      var inputType := GenerateInputType(input);
      arguments := arguments + [Argument(RustifyInput(input.name), letter)];
      bounds := bounds + [GenericParam(letter, inputType)];
    }
  }

  /** `generate_calculate_outputs`: one element type per output, wrapped in
      a tuple when there is more than one. */
  method GenerateCalculateOutputs(info: FuncInfo) returns (t: ReturnType)
    ensures t == ReturnTypeOf(info.outputs)
  {
    var outputs: seq<ScalarType> := [];
    for j := 0 to |info.outputs|
      invariant |outputs| == j
      invariant forall k :: 0 <= k < j ==> outputs[k] == OutputScalar(info.outputs[k].kind)
    {
      outputs := outputs + [OutputScalar(info.outputs[j].kind)];
    }
    if |outputs| > 1 {
      t := Tuple(outputs);
    } else if |outputs| == 1 {
      t := Single(outputs[0]);
    } else {
      t := NoOutput;
    }
  }

  /** `generate_input_length`: the identifiers whose lengths feed `max!`
      and `min!`. */
  method GenerateInputLength(info: FuncInfo) returns (idents: seq<string>)
    ensures |idents| == |info.inputs|
    ensures forall i :: 0 <= i < |idents| ==> idents[i] == RustifyInput(info.inputs[i].name)
  {
    idents := [];
    for i := 0 to |info.inputs|
      invariant |idents| == i
      invariant forall k :: 0 <= k < i ==> idents[k] == RustifyInput(info.inputs[k].name)
    {
      idents := idents + [RustifyInput(info.inputs[i].name)];
    }
  }

  /** `generate_call_and_return`. */
  method GenerateCallAndReturn(info: FuncInfo) returns (c: CallAndReturn)
    ensures |c.wrapped| == |info.outputs|
    ensures forall j :: 0 <= j < |c.wrapped| ==> c.wrapped[j] == RustifyInput(info.outputs[j].name)
    ensures c.tupled <==> |info.outputs| > 1
  {
    var outputs: seq<string> := [];
    for j := 0 to |info.outputs|
      invariant |outputs| == j
      invariant forall k :: 0 <= k < j ==> outputs[k] == RustifyInput(info.outputs[k].name)
    {
      outputs := outputs + [RustifyInput(info.outputs[j].name)];
    }
    c := CallAndReturn(outputs, |outputs| > 1);
  }

  /** `generate_indicator_calculate_func`. */
  method GenerateIndicatorCalculateFunc(info: FuncInfo) returns (f: CalculateFunc)
    ensures f == CalculateFuncOf(info)
  {
    var bounds, inputs := GenerateCalculateInputs(info);
    var optInputParams := GenerateOptInputParams(info);
    var inputParams := GenerateInputParams(info);
    var inputLength := GenerateInputLength(info);
    var funcOutputs := GenerateCalculateOutputs(info);
    var outputParams := GenerateOutputParams(info);
    var callAndReturn := GenerateCallAndReturn(info);
    f := CalculateFunc(bounds, inputs, optInputParams, inputParams, inputLength, outputParams,
                       funcOutputs, callAndReturn);
  }

  /** `generate_func_struct`. */
  method GenerateFuncStruct(info: FuncInfo) returns (s: FuncStruct)
    ensures s == FuncStructOf(info)
  {
    var members := GenerateIndicatorStructMembers(info);
    var calculate := GenerateIndicatorCalculateFunc(info);
    s := FuncStruct(info.camelCaseName, info.name, members, calculate);
  }

  /** `generate_indicator_modules`: one module per group of the catalog,
      in the catalog's (unspecified) iteration order. */
  method GenerateIndicatorModules(data: map<string, map<string, FuncInfo>>) returns (modules: seq<GroupModule>)
    ensures |modules| == |data|
    ensures forall g :: g in data ==> GroupModuleOf(g, data[g]) in modules
    ensures forall m :: m in modules ==> exists g :: g in data && m == GroupModuleOf(g, data[g])
  {
    modules := [];
    var left := data.Keys;
    while left != {}
      invariant left <= data.Keys
      invariant |modules| + |left| == |data|
      invariant forall g :: g in data.Keys - left ==> GroupModuleOf(g, data[g]) in modules
      invariant forall m :: m in modules ==> exists g :: g in data.Keys - left && m == GroupModuleOf(g, data[g])
      decreases left
    {
      var group :| group in left;
      var indicators := data[group];
      modules := modules + [GroupModuleOf(group, indicators)];
      left := left - {group};
    }
  }

  // ---------------------------------------------------------------------
  // What the decisions guarantee.

  /** `[c]` when `c` is asked for, nothing otherwise. */
  function IfAsked(asked: bool, c: Capability): seq<Capability>
  {
    if asked then [c] else []
  }

  /** The six conditional pushes of a price bound, in order. */
  function Pushes(open: bool, low: bool, high: bool, close: bool, volume: bool, openInterest: bool): seq<Capability>
  {
    IfAsked(open, Open) + IfAsked(low, Low) + IfAsked(high, High)
    + IfAsked(close, Close) + IfAsked(volume, Volume) + IfAsked(openInterest, OpenInterest)
  }

  /** Keeping the asked-for capabilities of the bound order is pushing each
      one in turn when it is asked for. */
  lemma KeptBoundOrder(asked: Capability -> bool)
    ensures Kept(BOUND_ORDER, asked) ==
      Pushes(asked(Open), asked(Low), asked(High), asked(Close), asked(Volume), asked(OpenInterest))
  {
    KeptSnoc([], Open, asked);
    assert [] + [Open] == [Open];
    assert Kept([Open], asked) == IfAsked(asked(Open), Open);
    KeptSnoc([Open], Low, asked);
    assert [Open] + [Low] == [Open, Low];
    assert Kept([Open, Low], asked) == IfAsked(asked(Open), Open) + IfAsked(asked(Low), Low);
    KeptSnoc([Open, Low], High, asked);
    assert [Open, Low] + [High] == [Open, Low, High];
    assert Kept([Open, Low, High], asked) == IfAsked(asked(Open), Open) + IfAsked(asked(Low), Low) + IfAsked(asked(High), High);
    KeptSnoc([Open, Low, High], Close, asked);
    assert [Open, Low, High] + [Close] == [Open, Low, High, Close];
    assert Kept([Open, Low, High, Close], asked) == IfAsked(asked(Open), Open) + IfAsked(asked(Low), Low) + IfAsked(asked(High), High) + IfAsked(asked(Close), Close);
    KeptSnoc([Open, Low, High, Close], Volume, asked);
    assert [Open, Low, High, Close] + [Volume] == [Open, Low, High, Close, Volume];
    assert Kept([Open, Low, High, Close, Volume], asked) == IfAsked(asked(Open), Open) + IfAsked(asked(Low), Low) + IfAsked(asked(High), High) + IfAsked(asked(Close), Close) + IfAsked(asked(Volume), Volume);
    KeptSnoc([Open, Low, High, Close, Volume], OpenInterest, asked);
    assert [Open, Low, High, Close, Volume] + [OpenInterest] == [Open, Low, High, Close, Volume, OpenInterest];
    assert Kept([Open, Low, High, Close, Volume, OpenInterest], asked) == IfAsked(asked(Open), Open) + IfAsked(asked(Low), Low) + IfAsked(asked(High), High) + IfAsked(asked(Close), Close) + IfAsked(asked(Volume), Volume) + IfAsked(asked(OpenInterest), OpenInterest);
  }

  lemma PriceBoundPushes(flags: bv32)
    ensures PriceBound(flags) == Pushes(IP.Contains(flags, IP.OPEN), IP.Contains(flags, IP.LOW),
      IP.Contains(flags, IP.HIGH), IP.Contains(flags, IP.CLOSE), IP.Contains(flags, IP.VOLUME),
      IP.Contains(flags, IP.OPEN_INTEREST))
  {
    KeptBoundOrder(Asks(flags));
  }

  /** Visiting one more capability pushes it when it is asked for. */
  lemma KeptSnoc(cs: seq<Capability>, c: Capability, asked: Capability -> bool)
    ensures Kept(cs + [c], asked) == Kept(cs, asked) + IfAsked(asked(c), c)
  {
    assert (cs + [c])[..|cs|] == cs;
  }

  /** A capability is kept exactly when it is in `cs` and asked for. */
  lemma {:induction false} KeptMembership(cs: seq<Capability>, asked: Capability -> bool)
    ensures forall c :: c in Kept(cs, asked) <==> c in cs && asked(c)
    decreases |cs|
  {
    if |cs| > 0 {
      var init := cs[..|cs| - 1];
      KeptMembership(init, asked);
      assert cs == init + [cs[|cs| - 1]];
    }
  }

  /** Strictly increasing in the order of a generated bound. */
  predicate Increasing(s: seq<Capability>)
  {
    forall i, j :: 0 <= i < j < |s| ==> Rank(s[i]) < Rank(s[j])
  }

  /** The kept capabilities keep the order of `cs`. */
  lemma {:induction false} KeptOrdered(cs: seq<Capability>, asked: Capability -> bool)
    requires Increasing(cs)
    ensures Increasing(Kept(cs, asked))
    decreases |cs|
  {
    if |cs| > 0 {
      var init := cs[..|cs| - 1];
      var last := cs[|cs| - 1];
      assert Increasing(init) by {
        forall i, j | 0 <= i < j < |init| ensures Rank(init[i]) < Rank(init[j]) {
          assert init[i] == cs[i] && init[j] == cs[j];
        }
      }
      KeptOrdered(init, asked);
      KeptMembership(init, asked);
      var front := Kept(init, asked);
      forall c | c in front ensures Rank(c) < Rank(last) {
        var k :| 0 <= k < |init| && init[k] == c;
        assert init[k] == cs[k];
      }
      if asked(last) {
        IncreasingSnoc(front, last);
      }
    }
  }

  lemma IncreasingSnoc(s: seq<Capability>, c: Capability)
    requires Increasing(s)
    requires forall x :: x in s ==> Rank(x) < Rank(c)
    ensures Increasing(s + [c])
  {
    var r := s + [c];
    forall i, j | 0 <= i < j < |r| ensures Rank(r[i]) < Rank(r[j]) {
      assert r[i] == s[i];
      if j < |s| { assert r[j] == s[j]; } else { assert s[i] in s; }
    }
  }

  /** Two predicates that agree on `cs` keep the same capabilities. */
  lemma {:induction false} KeptDependsOnlyOnCs(cs: seq<Capability>, asked1: Capability -> bool, asked2: Capability -> bool)
    requires forall c :: c in cs ==> asked1(c) == asked2(c)
    ensures Kept(cs, asked1) == Kept(cs, asked2)
    decreases |cs|
  {
    if |cs| > 0 {
      var init := cs[..|cs| - 1];
      forall c | c in init ensures asked1(c) == asked2(c) {
        assert c in cs;
      }
      KeptDependsOnlyOnCs(init, asked1, asked2);
    }
  }

  /** The bound of a price input lists `Open`, `Low`, `High`, `Close`,
      `Volume`, `OpenInterest` exactly when the matching flag is set, each
      once and in that order; `TIMESTAMP` adds nothing. */
  lemma PriceBoundMatchesFlags(flags: IP.InputFlags)
    ensures forall c :: c in PriceBound(flags) <==> Has(flags, c)
    ensures Increasing(PriceBound(flags))
    ensures PriceBound(flags | IP.TIMESTAMP) == PriceBound(flags)
  {
    var cs := BOUND_ORDER;
    forall c ensures c in cs {
      assert cs[Rank(c)] == c;
    }
    assert Increasing(cs);
    KeptMembership(cs, Asks(flags));
    KeptOrdered(cs, Asks(flags));
    forall c ensures Asks(flags | IP.TIMESTAMP)(c) == Asks(flags)(c) {
      TimestampAsksForNoCapability(flags, c);
    }
    KeptDependsOnlyOnCs(cs, Asks(flags | IP.TIMESTAMP), Asks(flags));
  }

  lemma TimestampAsksForNoCapability(flags: bv32, c: Capability)
    ensures Has(flags | IP.TIMESTAMP, c) == Has(flags, c)
  {
  }

  /** Each price component of a generated `Ohlc` is the input's accessor
      when its flag is set and a null pointer otherwise; a series input is
      passed as its slice pointer. */
  lemma InputValueFollowsFlags(input: IP.Input)
    ensures input.kind != IP.Price <==> InputValueOf(input) == SlicePointer(RustifyInput(input.name))
    ensures input.kind == IP.Price ==>
      var v := InputValueOf(input);
      var ident := RustifyInput(input.name);
      && (v.open == Accessor(ident, Open) <==> IP.Contains(input.flags, IP.OPEN))
      && (v.low == Accessor(ident, Low) <==> IP.Contains(input.flags, IP.LOW))
      && (v.high == Accessor(ident, High) <==> IP.Contains(input.flags, IP.HIGH))
      && (v.close == Accessor(ident, Close) <==> IP.Contains(input.flags, IP.CLOSE))
      && (v.volume == Accessor(ident, Volume) <==> IP.Contains(input.flags, IP.VOLUME))
      && (v.openInterest == Accessor(ident, OpenInterest) <==> IP.Contains(input.flags, IP.OPEN_INTEREST))
      && (v.open.NullPointer? <==> !IP.Contains(input.flags, IP.OPEN))
      && (v.openInterest.NullPointer? <==> !IP.Contains(input.flags, IP.OPEN_INTEREST))
  {
  }

  /** The generated `calculate` is consistent with itself and with the
      descriptor: one generic and one argument per input up to the 25
      letters, lettered `A`, `B`, ... in input order; each optional
      parameter bound at its own position with its own variant from the
      member of the same name, whose type is `i32` exactly for integers;
      each output bound under the name it is returned by; and a tuple
      returned exactly when there is more than one output. */
  lemma CalculateFuncIsConsistent(info: FuncInfo)
    ensures var f := CalculateFuncOf(info);
      && |f.generics| == |f.arguments| == Min(|info.inputs|, 25)
      && (forall i :: 0 <= i < |f.generics| ==>
            f.generics[i].letter == f.arguments[i].letter == ('A' as int + i) as char
            && f.arguments[i].ident == f.lengthArgs[i])
      && |f.paramBinds| == |FuncStructOf(info).members| == |info.params|
      && (forall i :: 0 <= i < |info.params| ==>
            && f.paramBinds[i].member == FuncStructOf(info).members[i].ident
            && f.paramBinds[i].position == info.params[i].position
            && f.paramBinds[i].kind == info.params[i].kind
            && (FuncStructOf(info).members[i].ty == I32 <==> info.params[i].kind == OI.Integer))
      && |f.outputBinds| == |f.callAndReturn.wrapped| == |info.outputs|
      && (forall j :: 0 <= j < |info.outputs| ==> f.outputBinds[j].ident == f.callAndReturn.wrapped[j])
      && (f.callAndReturn.tupled <==> f.returnType.Tuple?)
      && (f.returnType.Single? <==> |info.outputs| == 1)
  {
    var f := CalculateFuncOf(info);
    forall i | 0 <= i < |f.generics|
      ensures f.generics[i].letter == f.arguments[i].letter == ('A' as int + i) as char
    {
      assert Letter(i) == ('A' as int + i) as char;
    }
  }

  /** The return type lists one element type per output, in descriptor
      order: `Vec<i32>` for an integer output and `Vec<f64>` for a real one. */
  lemma ReturnTypeFollowsOutputs(outputs: seq<OP.Output>)
    ensures |outputs| == 0 <==> ReturnTypeOf(outputs) == NoOutput
    ensures |outputs| == 1 ==> ReturnTypeOf(outputs) == Single(OutputScalar(outputs[0].kind))
    ensures |outputs| > 1 ==> |ReturnTypeOf(outputs).elems| == |outputs|
    ensures |outputs| > 1 ==> forall j :: 0 <= j < |outputs| ==>
              (ReturnTypeOf(outputs).elems[j] == I32 <==> outputs[j].kind == OP.Integer)
  {
  }
}
