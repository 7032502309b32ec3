# rustta: the Rust side of the TA-Lib bindings, modelled in Dafny

rustta wraps the TA-Lib technical-analysis library.

- **The reflection layer.** A binding crate reads the native function catalog through the library's reflection interface: `GroupTable`, `FuncTable`, `FuncHandle`, `FuncInfo` and the three parameter descriptors. It builds a `Meta` catalog from it.
- **The generator.** A build script turns the catalog into one Rust module per function group. Each module has one struct per function, with a generic `calculate` method.
- **What `calculate` does.** It resolves the function by name and allocates a native call context (`ParamHolder`). It binds the struct's optional parameters and the caller's input series. It sizes and binds one output buffer per output, runs the function and returns the elements produced.

This project models that Rust side. Every native call is an oracle:

- **Reflection calls** are fields of `Registry.Registry`: the group and function tables, handle lookup, the function record and the three per-slot parameter records.
- **Calling-context calls** are fields of `ParamHolders.NativeCalls`: allocation, the slot table, the lookback, the call's return code, and the elements each output slot receives.

The model is organised one module per source file:

| module | file |
|---|---|
| `TaTypes` | `types.rs` |
| `Folds` | the `max!`/`min!` macros |
| `InputParams`, `OptInputParams`, `OutputParams` | the three parameter files |
| `FuncHandles` | `func_handle.rs` |
| `FuncInfos` | `func_info.rs` |
| `Meta` | `meta/mod.rs`, with the group and function tables |
| `CallerInputs` | `src/input.rs` |
| `ParamHolders` | `param_holder.rs` |
| `NameMangling` | `rustify_name` and `rustify_input` |
| `Generator` | the `generate_*` functions of `build.rs` |
| `GeneratedCalculate` | the body of the `calculate` that `build.rs` emits, as it runs |

Code that loops or mutates is written as methods with loops:

- `func_params`.
- The nested walk of `Meta::new`.
- The `generate_*` loops.
- The `ParamHolder` class, whose slot-binding methods update its fields.
- The generated `calculate`.

Each method is proved equal to a specification function; the properties are proved about those functions.

The central safety property: a generated `calculate` never lets the native call read past the end of a series, and never lets it write past the end of an output buffer. This is `GeneratedCalculate.CallIsSafe`, used by `Invoke`. It needs the invoke range to stop inside the shortest series the call reads, and as written it does not; see "## Findings".

## Model

| member | source | states |
|---|---|---|
| TaTypes.FromRetCode | rustta_bindgen/src/types.rs:27-35 | `TA_ALLOC_ERR` gives exactly `BadAllocation` and `TA_BAD_PARAM` exactly `BadParam`. Every other code, success included, gives a `Misc` error whose message extends the fixed "Unknown return code: " prefix. `FuncNotFound` is never produced. |
| TaTypes.Display | rustta_bindgen/src/types.rs:14-23 | `Display for TaError`. It has no contract of its own: `DisplayEmbedsPayload` proves the payload can be read back, and `DisplayInjective` that two errors never render alike. |
| TaTypes.DisplayEmbedsPayload | rustta_bindgen/src/types.rs:14-23 | The rendering of `FuncNotFound(e)` holds `e` between "Function with name " and " not found". The rendering of `Misc(e)` is "Misc error: " followed by `e`. |
| TaTypes.DisplayInjective | rustta_bindgen/src/types.rs:14-23 | Two errors that render to the same text are equal: each variant has its own prefix and keeps its payload. |
| TaTypes.FromBits | rustta_bindgen/src/meta/params/input.rs:92-103 | `from_bits` of a `bitflags!` set, shared by `InputFlags`, `OptInputFlags` and `OutputFlags`. It accepts a pattern exactly when the pattern uses no bit outside the set's flags, and then keeps it unchanged. |
| Folds.MaxOf | src/indicators.rs:3-11 | `max!` over a non-empty list is at least every argument and equal to one of them. |
| Folds.MinOf | src/indicators.rs:13-21 | `min!` over a non-empty list is at most every argument and equal to one of them. |
| Folds.MinAtMostMax | src/indicators.rs:3-21 | Over the same list, `min!` never exceeds `max!`. |
| InputParams.InputTypeFrom | rustta_bindgen/src/meta/params/input.rs:16-24 | `From<TA_InputParameterType> for InputType`. It has no contract of its own: `InputTypeFromIsBijection` proves it a bijection with inverse `ToNative`. |
| InputParams.InputTypeFromIsBijection | rustta_bindgen/src/meta/params/input.rs:16-24 | `InputType::from` is a bijection between the three native kinds and `Real`/`Integer`/`Price`; its inverse is `ToNative`. |
| InputParams.FlagsAreDistinctBits | rustta_bindgen/src/meta/params/input.rs:92-103 | The seven flags are single bits, pairwise disjoint. `from_bits` accepts exactly the unions of them. |
| InputParams.InputFromReply | rustta_bindgen/src/meta/params/input.rs:61-90 | A non-success code gives `Err(TaError::from(code))`. Success gives an `Input` at the queried position, with the record's name, kind and flags. |
| OptInputParams.OptInputTypeFrom | rustta_bindgen/src/meta/params/opt_input.rs:15-24 | `From<TA_OptInputParameterType> for OptInputType`. It has no contract of its own: `OptInputTypeFromKeepsNumericKind` proves it keeps exactly the integer/real distinction. |
| OptInputParams.OptInputTypeFromKeepsNumericKind | rustta_bindgen/src/meta/params/opt_input.rs:15-24 | Both integer shapes give `Integer` and both real shapes give `Real`, in both directions. |
| OptInputParams.FlagsAreDistinctBits | rustta_bindgen/src/meta/params/opt_input.rs:125-133 | The four flags are disjoint single bits at or above 0x00100000. An accepted pattern has no bit below that, and `from_bits` accepts exactly their unions. |
| OptInputParams.OptInputFromReply | rustta_bindgen/src/meta/params/opt_input.rs:80-123 | A non-success code gives `Err(TaError::from(code))`. Success copies the name, display name, hint, default and flags verbatim, and the kind is `Integer` exactly for an integer shape. |
| OutputParams.OutputTypeFrom | rustta_bindgen/src/meta/params/output.rs:15-22 | `From<TA_OutputParameterType> for OutputType`. It has no contract of its own: `OutputTypeFromIsBijection` proves it maps integer to integer, real to real, one-to-one. |
| OutputParams.OutputTypeFromIsBijection | rustta_bindgen/src/meta/params/output.rs:15-22 | `TA_Output_Integer` gives `Integer` and `TA_Output_Real` gives `Real`; the map is injective. |
| OutputParams.FlagsAreDistinctBits | rustta_bindgen/src/meta/params/output.rs:82-99 | The thirteen flags are disjoint single bits from 0x1 to 0x1000. `from_bits` accepts exactly the patterns without a bit above 0x1000. |
| OutputParams.OutputFromReply | rustta_bindgen/src/meta/params/output.rs:53-80 | A non-success code gives `Err(TaError::from(code))`. Success gives an `Output` at the queried position, with the record's name, kind and flags. |
| FuncHandles.New | rustta_bindgen/src/meta/func_handle.rs:16-27 | `TA_SUCCESS` gives the handle found, `TA_FUNC_NOT_FOUND` gives `FuncNotFound(name)`, and every other code goes through `TaError::from`. |
| FuncHandles.TryFromStr | rustta_bindgen/src/meta/func_handle.rs:33-37 | A name holding NUL fails with the `Misc` message and no lookup. Any other name is looked up as `new` does, and success means the registry resolved that name to that handle. |
| FuncHandles.NotFoundCarriesName | rustta_bindgen/src/meta/func_handle.rs:16-37 | `FuncNotFound` arises exactly when a valid name's lookup answers not-found, and it carries the name asked for. |
| FuncInfos.ReadAll | rustta_bindgen/src/meta/func_info.rs:54-66 | Reading slots `0 .. count-1` succeeds exactly when every slot reads. The result then has length `count`, and element `i` is slot `i`'s value. |
| FuncInfos.ReadAllStaysFailed | rustta_bindgen/src/meta/func_info.rs:60-63 | Once a prefix fails, every longer prefix fails with the same error: the loop aborts. |
| FuncInfos.ReadAllFirstFailure | rustta_bindgen/src/meta/func_info.rs:60-63 | A failed read reports the error of the lowest failing slot, and every slot below it read successfully. |
| FuncInfos.FuncParams | rustta_bindgen/src/meta/func_info.rs:54-66 | The index loop with early return computes `ReadAll`. |
| FuncInfos.TryFromHandle | rustta_bindgen/src/meta/func_info.rs:69-124 | The method (record, then params, inputs and outputs, each with `?`) computes `FuncInfoOf`. |
| FuncInfos.FuncInfoMatchesNativeRecord | rustta_bindgen/src/meta/func_info.rs:72-122 | A failed `TA_GetFuncInfo` is reported before any slot is read. A descriptor has exactly `nbOptInput`/`nbInput`/`nbOutput` entries, each at its own index, plus the record's handle and names. |
| Meta.GroupTableNew | rustta_bindgen/src/meta/group_table.rs:9-18 | Success gives the native group names, and a failure its code's error. |
| Meta.FuncTableNew | rustta_bindgen/src/meta/func_table.rs:14-23 | Success gives the group's native function names, and a failure its code's error. |
| Meta.InsertAll | rustta_bindgen/src/meta/mod.rs:26-36 | Inserting each key's step result succeeds exactly when every step succeeds. The map is then keyed by exactly the keys, and each value is its key's step result. |
| Meta.InsertAllFailsAt | rustta_bindgen/src/meta/mod.rs:26-36 | When the keys before `i` succeed and key `i` fails, the walk fails with key `i`'s error, whatever follows. |
| Meta.GroupFuncs | rustta_bindgen/src/meta/mod.rs:30-34 | The inner loop (handle, then `FuncInfo`, then insert, with `?`) computes `InsertAll` over the group's names. |
| Meta.New | rustta_bindgen/src/meta/mod.rs:22-40 | The nested loop computes `MetaOf`. |
| Meta.CatalogMatchesTables | rustta_bindgen/src/meta/mod.rs:22-40 | On success the catalog is keyed by exactly the group table's names, and each group by exactly its function table's names. Each entry is the descriptor of the handle its name resolves to. |
| Meta.CatalogFailsIffSomeStepFails | rustta_bindgen/src/meta/mod.rs:24-37 | `Meta::new` fails exactly when the group table or some group's step fails: no partial catalog. |
| Meta.GroupFailsIffSomeNameFails | rustta_bindgen/src/meta/mod.rs:28-34 | A group's step fails exactly when its function table or some name's step fails. |
| Meta.NameFailsIffHandleOrInfoFails | rustta_bindgen/src/meta/mod.rs:31-32 | A name's step fails exactly when its handle lookup or its `FuncInfo` fails. |
| Meta.EmptyGroupTableGivesEmptyCatalog | rustta_bindgen/src/meta/mod.rs:22-40 | An empty group table gives `Ok` with an empty catalog. |
| CallerInputs.Length | src/input.rs:23-45 | `length()` is at least every component's length and equal to one of them. |
| CallerInputs.Projection | src/input.rs:47-75 | The `Open`, `Low`, `High`, `Close` and `Volume` impls: a tuple projects `.0` to `.4`, and no type implements `OpenInterest`. It has no contract of its own: `ProjectionWithinLength` and `BoundSatisfiedIffNoOpenInterest` state what is proved about it. |
| CallerInputs.LengthIsLongestComponent | src/input.rs:23-45 | For a slice or `Vec` it is the element count. For the five-tuple it is at least each component's length and one of the five lengths. |
| CallerInputs.ProjectionWithinLength | src/input.rs:35-75 | Every projection a type implements is no longer than its `length()`. |
| CallerInputs.BoundSatisfiedIffNoOpenInterest | src/input.rs:1-75 | A tuple satisfies a capability bound exactly when the bound has no `OpenInterest`. A series satisfies only the empty bound. |
| NameMangling.Lower | build.rs:355-367 | `to_lowercase` on ASCII keeps the length and leaves no upper-case letter. Every character that is not an upper-case letter stays in its place, and each upper-case letter becomes the letter 32 code points above it. |
| NameMangling.LowerIdempotent | build.rs:355-367 | Lower-casing lower-cased text changes nothing. |
| NameMangling.ReplaceAll | build.rs:358-366 | `str::replace`, the leftmost non-overlapping scan. It has no contract of its own: `ReplaceAbsentIsIdentity`, `ReplaceWithoutLeadCharIsIdentity`, `ReplaceSkipsChar`, `ReplaceCharIsCharMap` and `ReplaceKeepsLowerCase` state what is proved about it. |
| NameMangling.ReplaceAbsentIsIdentity | build.rs:355-367 | `replace` leaves text without the pattern unchanged. |
| NameMangling.ReplaceCharIsCharMap | build.rs:358-359 | Replacing one character by one character maps each position independently. |
| NameMangling.ReplaceKeepsLowerCase | build.rs:365-366 | Replacement introduces no upper-case letter. |
| NameMangling.RustifyName | build.rs:355-360 | `rustify_name`. It has no contract of its own: `RustifyNameIsCharMap` proves it a length-keeping character map to lower case with `_` for spaces and hyphens, `RustifyNameIdempotent` that it is idempotent, and `GroupNameExample` gives the crate's module name. |
| NameMangling.RustifyNameIsCharMap | build.rs:355-360 | `rustify_name` keeps the length and maps spaces and hyphens to `_`, and letters to lower case. The result has no space, hyphen or upper-case letter. |
| NameMangling.RustifyNameIdempotent | build.rs:355-360 | Mangling a mangled name changes nothing. |
| NameMangling.RustifyInput | build.rs:362-367 | `rustify_input`. It has no contract of its own: `RustifyInputIsLowerCase` proves the result lower-case, `InnerInIsDeleted` that every "in" is deleted, and `RealInputNameExample` and `PriceInputNameExample` give the documented names. |
| NameMangling.RustifyInputIsLowerCase | build.rs:362-367 | `rustify_input` yields no upper-case letter. |
| NameMangling.GroupNameExample | build.rs:355-360 | "Overlap Studies" becomes `overlap_studies`. |
| NameMangling.ReplaceWithoutLeadCharIsIdentity | build.rs:365-366 | Text without the pattern's first character is unchanged. |
| NameMangling.ReplaceSkipsChar | build.rs:365-366 | A character that cannot start the pattern is copied and the scan moves on. |
| NameMangling.DeleteInFromPriceHlc | build.rs:365 | "pricehlc" holds no "in". |
| NameMangling.DeleteInFromOutInteger | build.rs:365 | "outinteger" loses its inner "in". |
| NameMangling.DeleteLeadingIn | build.rs:365 | "integer" becomes "teger". |
| NameMangling.RealInputNameExample | build.rs:362-367 | "inReal" becomes `real`. |
| NameMangling.PriceInputNameExample | build.rs:362-367 | "inPriceHLC" becomes `price_hlc`. |
| NameMangling.DeleteInFromInPriceHlc | build.rs:365 | "inpricehlc" becomes "pricehlc". |
| NameMangling.InsertUnderscoreAfterPrice | build.rs:366 | "pricehlc" becomes "price_hlc". |
| NameMangling.InnerInIsDeleted | build.rs:362-367 | Every "in" is deleted, not only a leading one: "outInteger" becomes `outteger`. |
| Generator.GenerateIndicatorStructMembers | build.rs:77-104 | One member per optional parameter, in order: the mangled display name, with `i32` for an integer and `f64` for a real. |
| Generator.GenerateOptInputParams | build.rs:134-152 | One `set_param` per optional parameter, in order, at its position, with its kind and member. |
| Generator.GenerateInputType | build.rs:316-346 | The six conditional pushes compute the bound `InputBoundOf`. |
| Generator.GenerateInputParams | build.rs:154-222 | One `set_input` per input, in order, binding `InputValueOf(input)` at its position. |
| Generator.GenerateOutputParams | build.rs:224-245 | One buffer and `set_output` per output, in order, named by `rustify_input`. |
| Generator.GenerateCalculateInputs | build.rs:247-262 | Zipping with `'A'..'Z'` gives `min(#inputs, 25)` bounds and arguments, lettered in input order. |
| Generator.GenerateCalculateOutputs | build.rs:264-279 | The loop and the arity test compute `ReturnTypeOf`. |
| Generator.GenerateInputLength | build.rs:281-293 | The identifiers fed to `max!`/`min!` are the inputs' mangled names, in order. |
| Generator.GenerateCallAndReturn | build.rs:295-314 | One `wrap_output` per output, in order, tupled exactly when there is more than one. |
| Generator.GenerateIndicatorCalculateFunc | build.rs:106-132 | The sequenced generators compute `CalculateFuncOf`. |
| Generator.GenerateFuncStruct | build.rs:55-75 | The struct has the camel-case name, the `ID` and the members of the descriptor, plus its `calculate`. |
| Generator.GenerateIndicatorModules | build.rs:24-53 | One module per catalog group, each group's module present, and nothing else, in unspecified order. |
| Generator.KeptBoundOrder | build.rs:322-343 | Filtering the fixed bound order equals pushing each capability in turn when asked for. |
| Generator.PriceBoundPushes | build.rs:322-343 | The price bound is the six flag-tested pushes, in order. |
| Generator.KeptSnoc | build.rs:322-343 | Visiting one more capability appends it exactly when asked for. |
| Generator.KeptMembership | build.rs:322-343 | A capability is kept exactly when it is visited and asked for. |
| Generator.KeptOrdered | build.rs:322-343 | Filtering keeps the visiting order. |
| Generator.IncreasingSnoc | build.rs:322-343 | Appending a capability later in the bound order keeps the bound increasing. |
| Generator.KeptDependsOnlyOnCs | build.rs:322-343 | Two tests that agree on the visited capabilities keep the same ones. |
| Generator.PriceBoundMatchesFlags | build.rs:316-346 | A price bound lists each capability exactly when its flag is set, once each, in the order `Open, Low, High, Close, Volume, OpenInterest`. `TIMESTAMP` changes nothing. |
| Generator.TimestampAsksForNoCapability | build.rs:321-343 | Setting `TIMESTAMP` asks for no capability. |
| Generator.InputValueFollowsFlags | build.rs:161-206 | A series input passes its slice pointer. Each `Ohlc` component is the accessor exactly when its flag is set, and null otherwise. |
| Generator.CalculateFuncIsConsistent | build.rs:106-132 | Generics and arguments come one per input up to 25, lettered `A`, `B`, … and named like the length arguments. Each `set_param` uses its parameter's position and kind and its member's name, the member being `i32` exactly for integers. Output buffers are the values returned, and the result is tupled exactly when it is a tuple. |
| Generator.ReturnTypeFollowsOutputs | build.rs:264-279 | The result type has no output exactly for none, a single `Vec` for one, and otherwise one element type per output in order, `i32` exactly for integers. |
| ParamHolders.SixTupleLengthAndProjections | rustta_bindgen/src/meta/params/param_holder.rs:51-98 | The six-tuple's length is its longest component. Its projections are open=.0, low=.1, high=.2, close=.3, volume=.4 and open_interest=.5. |
| ParamHolders.NativePriceArgsFollowFlagBits | rustta_bindgen/src/meta/params/param_holder.rs:138-148 | `set_input` passes open, high, low, close, volume and open interest, so native argument `k` is the component whose flag is bit `k`. |
| ParamHolders.PriceBindNeedsFlaggedComponents | rustta_bindgen/src/meta/params/param_holder.rs:138-148 | A price input binds exactly when every component its slot's flags ask for is present. |
| ParamHolders.AsUsize | rustta_bindgen/src/meta/params/param_holder.rs:201-202 | `lookback as usize` on a 64-bit target: a non-negative lookback keeps its value, and a negative one is sign-extended to at least `2^64 - 2^31`, below `2^64`. |
| ParamHolders.WindowSize | rustta_bindgen/src/meta/params/param_holder.rs:213-219 | The window `lo ..= hi` holds `hi - lo + 1` indices, or none when `lo > hi`. |
| ParamHolders.OutputSize | rustta_bindgen/src/meta/params/param_holder.rs:213-219 | The size `max(lookback, start) > end ? 0 : end - max(lookback, start) + 1` counts exactly the indices of `start ..= end` at or after the lookback. |
| ParamHolders.OutputSizeBoundedAndMonotone | rustta_bindgen/src/meta/params/param_holder.rs:213-219 | The size never exceeds `end - start + 1`, and does not decrease as `end` grows. |
| ParamHolders.BufferCoversInvokeRange | build.rs:290-291 | A buffer sized for `0 ..= n` holds everything a call over `0 ..= m` produces, for every `m <= n`. |
| ParamHolders.NegativeLookbackGivesEmptyWindow | rustta_bindgen/src/meta/params/param_holder.rs:202-219 | A negative native lookback, cast `as usize`, leaves the window of every realistic range empty: `required_output_size` is 0. |
| ParamHolders.ParamHolder.constructor | rustta_bindgen/src/meta/params/param_holder.rs:223-236 | A fresh context holds the slot table's defaults and no bound input or output. |
| ParamHolders.ParamHolder.Alloc | rustta_bindgen/src/meta/params/param_holder.rs:223-236 | Success exactly when `TA_ParamHolderAlloc` succeeds, giving a fresh, unfreed context with defaults and nothing bound; otherwise the code's error. |
| ParamHolders.ParamHolder.SetParam | rustta_bindgen/src/meta/params/param_holder.rs:159-174 | `Ok` exactly when the native bind succeeds, and otherwise exactly `BadParam`. Only the bound slot changes, and only on success. |
| ParamHolders.ParamHolder.SetInput | rustta_bindgen/src/meta/params/param_holder.rs:128-157 | The same contract for input slots. |
| ParamHolders.ParamHolder.SetOutput | rustta_bindgen/src/meta/params/param_holder.rs:176-193 | The same contract for output slots. |
| ParamHolders.ParamHolder.Lookback | rustta_bindgen/src/meta/params/param_holder.rs:195-206 | `Some` exactly when `TA_GetLookback` succeeds for the parameters bound now, holding its value cast `as usize`: a negative lookback wraps around. |
| ParamHolders.ParamHolder.RequiredOutputSize | rustta_bindgen/src/meta/params/param_holder.rs:208-220 | `None` exactly when the lookback is unavailable. Otherwise it is `0` when `max(lookback, start) > end`, and else `end - max(lookback, start) + 1`: the number of producible indices. |
| ParamHolders.ParamHolder.CallOutcome | build.rs:311 | A call succeeds exactly when every slot is bound, the range is non-empty, the lookback is available and the native function's own return code is success. When only that code fails, the error is the code's `TaError`. A successful call produces `required_output_size(start, end)` elements, at most `end - start + 1`, beginning at `max(lookback, start)`. |
| ParamHolders.ParamHolder.Call | build.rs:311 | The call's outcome is `CallOutcome`, and it changes none of the context's fields. On success each bound buffer's first `count` elements are the function's values and the rest are kept; on failure no buffer changes. |
| ParamHolders.ParamHolder.Free | rustta_bindgen/src/meta/params/param_holder.rs:238-242 | `Drop` marks the context freed. It requires that it was not freed before and changes no slot. |
| ParamHolders.BbandsBindingExample | rustta_bindgen/src/meta/params/param_holder.rs:259-287 | For a BBANDS-shaped function, input 0 and parameter 0 bind, while input 1 and parameter 10 give `BadParam`. |
| ParamHolders.TypPriceOutputExample | rustta_bindgen/src/meta/params/param_holder.rs:289-304 | For a TYPPRICE-shaped function, output 0 binds and output 1 gives `BadParam`. |
| ParamHolders.SmaLookbackExample | rustta_bindgen/src/meta/params/param_holder.rs:306-318 | For an SMA-shaped function the lookback is 29 by default, and 4 after binding a period of 5. |
| GeneratedCalculate.InputParamIsGeneratedValue | build.rs:161-217 | The bound parameter is what the generated expression denotes. A slice pointer binds the series itself; each `Ohlc` field binds its accessor's projection, or null. |
| GeneratedCalculate.BoundComponentIsFlagged | build.rs:163-206 | Each component of a bound price input is the flagged projection. |
| GeneratedCalculate.GeneratedInputBinds | build.rs:154-222 | Whatever the generated code binds for an input is accepted by a slot of the descriptor's kind and flags. |
| GeneratedCalculate.GeneratedBindsSucceed | build.rs:120-127 | When the native slots agree with the descriptor, every parameter, input and output the generated code binds is accepted. |
| GeneratedCalculate.ReadableFromBoundsReads | build.rs:161-206 | For a bound input, an index `e` is below `ReadableFrom` exactly when `e` is inside every series the native side reads. For an `Ohlc` that is each non-null component, and `e` must also be below the cap. |
| GeneratedCalculate.ReadLengthBoundsReads | build.rs:161-206 | `ReadLength` never exceeds the argument's `length()`. An index is below `ReadLength` exactly when it is below `length()` and inside every series the generated code binds for the input: the slice, or the flagged components of a tuple. Components passed as null pointers play no part. |
| GeneratedCalculate.InputLen | build.rs:290 | `input_len` is at least every argument's length. |
| GeneratedCalculate.EndIndexAsWritten | build.rs:291 | The generated `end_idx` is at least -1, below every argument's `length()`, and one less than one of them. `AsWrittenEndIndexOverrunsShortSeries` shows it can still reach past a series the call reads; `EndIndexIsLongestSafeRange` says exactly when it is safe. |
| GeneratedCalculate.EndIndexWithinEverySeries | build.rs:290-291 | The model's invoke end, one less than the smallest `ReadLength` of the arguments, is at least 0 and below `input_len`. It is never above the generated `end_idx`, and it lies below every argument's `ReadLength`. |
| GeneratedCalculate.EndIndexIsLongestSafeRange | build.rs:290-291 | Every series bound for every argument reaches the model's invoke end, and some argument's `ReadLength` ends right after it, so no longer range is safe. The invoke end equals the generated `end_idx` exactly when every bound series reaches `end_idx`: the correction changes only the calls that would read past a series. |
| GeneratedCalculate.HlcInputAcceptsTuples | build.rs:316-346 | An input flagged high, low and close accepts every five-tuple. It binds the tuple's low, high and close series and passes null pointers for open, volume and open interest. |
| GeneratedCalculate.ShortHighSeriesLengths | src/input.rs:35-45 | Take a single HLC input and a tuple whose high series holds one element and whose other components hold two. Its `ReadLength` is 1, the generated `end_idx` is 1 and the model's invoke end is 0. |
| GeneratedCalculate.AsWrittenEndIndexOverrunsShortSeries | build.rs:291 | For that tuple and an HLC input, the generated `end_idx` reaches past the bound high series, and the model's invoke end does not. |
| GeneratedCalculate.UnreadComponentsKeepEndIndex | build.rs:290-291 | Take a single HLC input and a tuple whose high, low and close series hold `n >= 1` elements. An open or volume series that is shorter, even empty, is accepted, and the model's invoke end equals the generated `end_idx`, `n - 1`. |
| GeneratedCalculate.PrefixOfProduced | build.rs:300 | The first `count` elements of a buffer the call wrote are exactly the function's values. |
| GeneratedCalculate.CalculatedWhenSlotsAgree | build.rs:115-131 | When the name resolves, the context allocates and the native slots agree with the descriptor, `calculate` fails exactly when the lookback fails or the native function refuses the call. A failed lookback gives the size message, and a refused call its code's error. On success it gives one result per output, of that output's kind, each of `EndIndex + 1 - lookback` elements (or none), never more than any argument's `ReadLength`. |
| GeneratedCalculate.ResultsHaveOutputShape | build.rs:295-313 | There is one result per output, of its kind, each holding `n` elements. |
| GeneratedCalculate.RefusedSettingEndsCalculate | build.rs:310-311 | A setting the native function rejects, with lookback -1 and a call answering `TA_BAD_PARAM`, makes `calculate` end with `BadParam` rather than values. |
| GeneratedCalculate.BindParams | build.rs:134-152 | The generated `set_param` sequence succeeds exactly when every setting binds, and otherwise gives `BadParam`. On success each slot holds its setting. |
| GeneratedCalculate.BindInputs | build.rs:154-222 | The generated `set_input` sequence succeeds exactly when every input binds, and otherwise gives `BadParam`. On success each slot holds the argument's bound value. |
| GeneratedCalculate.NewBuffer | build.rs:236-238 | `vec![0; output_size]` is a fresh buffer of the output's kind holding `output_size` zeros. |
| GeneratedCalculate.BindOutput | build.rs:236-240 | It makes a fresh buffer of the output's kind and size. The bind succeeds exactly when the slot exists with that kind; only that slot changes. |
| GeneratedCalculate.BindOutputs | build.rs:224-245 | The generated buffers-and-`set_output` sequence succeeds exactly when every output binds, and otherwise gives `BadParam`. The buffers are fresh, pairwise distinct, of each output's kind and size, and held in their slots. On a failure the slots before the failing output hold their new buffers, and the failing slot and those after it are unchanged. |
| GeneratedCalculate.WrapOutput | build.rs:300 | `wrap_output` gives the first `count` elements of the buffer. |
| GeneratedCalculate.Run | build.rs:115-131 | The generated body after allocation computes `Ran`. |
| GeneratedCalculate.RunBound | build.rs:123-129 | `input_len`, `required_output_size(0, input_len)` and the output bindings, then the call, compute `Sized`. |
| GeneratedCalculate.CallOutcomeFollowsSlots | build.rs:311 | With the descriptor's slots bound, the native call is refused exactly when the native function has a slot the descriptor lacks or its own return code is not success, with the error `Invoked` gives. Otherwise it produces `OutputSize` elements from the bound arguments. |
| GeneratedCalculate.HeldSeriesAreLongEnough | build.rs:291 | Every bound series reaches past an end below every argument's `ReadLength`. |
| GeneratedCalculate.HeldBuffersFit | build.rs:236-240 | Buffers held in the output slots are distinct and each has room for what is needed. |
| GeneratedCalculate.CallIsSafe | build.rs:289-292 | Everything the native call needs holds for the model's invoke range. The buffers sized for `input_len` are distinct and have room for every element produced, and every bound series reaches the end of the range. |
| GeneratedCalculate.WrapOutputs | build.rs:298-308 | Wrapping each buffer after the call gives exactly the function's results. |
| GeneratedCalculate.CallNative | build.rs:311 | The call's outcome is the context's `CallOutcome`, and the context is unchanged. On success each held buffer holds the function's values in front of its old contents. |
| GeneratedCalculate.Invoke | build.rs:310-313 | The call, then `wrap_output` per buffer, computes `Invoked`. |
| GeneratedCalculate.Calculate | build.rs:115-131 | The whole generated `calculate` computes `Calculated`. A context exists exactly when the name resolves and allocation succeeds, and then it is freed by the end. |

## Left out

- **The native library.** The indicator mathematics and every `TA_*` call are oracles. Reflection replies and the call context's slot table, lookback and output values are fields of `Registry.Registry` and `ParamHolders.NativeCalls`.
- **Native binding rules.** When TA-Lib accepts a bind follows TA-Lib's own behaviour: the slot exists, the kind matches, and the flagged price components are non-null. The crate only relies on the code being success.
- **`params.call` and `wrap_output`.** The crate does not define them.
  - `ParamHolder.Call` is modelled after `TA_CallFunc`. Unbound inputs, then unbound outputs, then an empty range, then a failing lookback are refused. Then the function's own return code, an oracle (`NativeCalls.callCode`), decides: this is where an indicator refuses an out-of-range setting. On success it writes `required_output_size(start, end)` elements into each bound buffer.
  - `wrap_output(ptr, n)` is modelled as taking the first `n` elements of the buffer.
- **Memory handling.** `ManuallyDrop` ownership of the output buffers and their reclamation are not modelled. Neither is the leak of buffers on an error path; buffers are plain arrays.
- **Floating point.** `f64` is `real`, and no rounding is modelled.
- **Integer widths.**
  - The `usize`/`u32`/`i32` casts of positions, lengths, start and end are not modelled: all are `nat`.
  - The native lookback is a C `int`, and its `as usize` is modelled for a 64-bit `usize` (`AsUsize`). A negative lookback wraps to a huge window start.
  - `ArgsFit` excludes an argument with an empty bound series or a zero `length()`. As generated, `min - 1` then underflows, or the call reads past that series; the model promises nothing for those calls.
- **The generated text.** `TokenStream`, `quote!`, `format_ident!`, the module `use` lines, `#[doc]` strings, `#[derive(Builder)]` and the member default formatting (`as i32`, `{:.1}`) are not modelled. The generator yields the structure of what it emits.
- **Names.** `to_string_lossy` is the identity: names are Dafny strings. `to_lowercase` is modelled on ASCII letters only.
- **`from_bits(..).unwrap()`.** It cannot panic in the model: the native flag fields are typed as patterns of defined bits.
- **`build.rs` as read.** The build script reads `meta.data`, a private field of `Meta`. It also maps `generate_func_struct` over `(name, FuncInfo)` pairs, and omits `.as_ptr()` on `open_interest()`. The model reads it as intended: `GroupModuleOf` maps over the catalog's descriptors, and the field is read directly. The missing `.as_ptr()` changes nothing, as no type implements `OpenInterest`.
- **Descriptor positions.** `OptInput` and `Output` carry a `position` field equal to their reflection index, as `Input` does. `build.rs` uses such a field, although the structs lack it.
- CallerInputs.CallerInput: models only the crate's own `Length` and price-trait impls (slices, `Vec`, the five-tuple). The generated signature of `GeneratedCalculate.Calculate` accepts any type implementing those traits. A user type whose `length()` or projections disagree could make `end_idx` overrun in other ways, and the model says nothing about such types.
- **`Ohlc` components** are `Option<seq<real>>`. The generated code passes null pointers for unflagged components, although the struct declares plain slices.
- **Catalog maps.** `HashMap` iteration order is unspecified; `GenerateIndicatorModules` states membership, not order.
  - A repeated name in a table maps to the same entry either way, because each step is a function of the name.
- **`FuncTable`'s `TryFrom<&str>`** (func_table.rs:40-47) is not used by `Meta::new` and is not modelled.
- **`GroupTable::iter` and `FuncTable::iter`.** Their raw string tables are plain sequences of names.
- **Generic letters.** The generated signature has at most 25 generic letters. For a function with more inputs it would not compile, so `ArgsFit` requires at most 25 arguments.
- **Slot positions.** `PositionsAreIndices` is required of the descriptor passed to `calculate`; `FuncInfos.FuncInfoMatchesNativeRecord` proves it for every descriptor read from the registry.
- **The five-tuple's `OpenInterest`.** It implements no `OpenInterest`, so a generated bound asking for it cannot be met; such a call is outside `ArgsFit`.
- GeneratedCalculate.BindOutputs: does not restate that the new buffers hold zeros; `NewBuffer` states it, and the results do not depend on it.
- GeneratedCalculate.Calculate: uses the corrected invoke end `EndIndex` rather than the generated `end_idx`. The generated `end_idx` is modelled by `EndIndexAsWritten`; see "## Findings".

## Findings

| source | as written | input that shows it | evidently intended | confidence | as-written member | corrected member |
|---|---|---|---|---|---|---|
| build.rs:290-291 with src/input.rs:35-45 and build.rs:311 | `end_idx = min!(x.length()) - 1`. For a five-tuple, `length()` is its longest component, and the native call reads indices `0 ..= end_idx` of every component a price input binds. | One price input flagged high, low and close, called with a tuple whose high series holds 1 element and whose other components hold 2. `end_idx` is 1 and the call reads index 1 of a one-element series. | Stop the invoke range inside every series that is read: `EndIndex`, one less than the smallest `ReadLength` over the series bound for each argument. It is never above the generated `end_idx`, and it equals `end_idx` exactly when `end_idx` is already safe. | medium, not executed | GeneratedCalculate.AsWrittenEndIndexOverrunsShortSeries | GeneratedCalculate.EndIndexIsLongestSafeRange |
