/** Error kinds of the binding crate, the native return codes they come from,
    and the small wrapper types shared by every other module. */
module TaTypes {

  datatype Option<+T> = None | Some(value: T)

  /** Return codes of the native library (one per variant of its `TA_RetCode`). */
  datatype RetCode =
    | Success
    | LibNotInitialize
    | BadParamCode
    | AllocErr
    | GroupNotFound
    | FuncNotFoundCode
    | InvalidHandle
    | InvalidParamHolder
    | InvalidParamHolderType
    | InvalidParamFunction
    | InputNotAllInitialize
    | OutputNotAllInitialize
    | OutOfRangeStartIndex
    | OutOfRangeEndIndex
    | InvalidListType
    | BadObject
    | NotSupported
    | InternalError
    | UnknownErr

  /** The text `{:?}` prints for a return code: the native variant's name. */
  function CodeName(code: RetCode): string
  {
    match code
    case Success => "TA_SUCCESS"
    case LibNotInitialize => "TA_LIB_NOT_INITIALIZE"
    case BadParamCode => "TA_BAD_PARAM"
    case AllocErr => "TA_ALLOC_ERR"
    case GroupNotFound => "TA_GROUP_NOT_FOUND"
    case FuncNotFoundCode => "TA_FUNC_NOT_FOUND"
    case InvalidHandle => "TA_INVALID_HANDLE"
    case InvalidParamHolder => "TA_INVALID_PARAM_HOLDER"
    case InvalidParamHolderType => "TA_INVALID_PARAM_HOLDER_TYPE"
    case InvalidParamFunction => "TA_INVALID_PARAM_FUNCTION"
    case InputNotAllInitialize => "TA_INPUT_NOT_ALL_INITIALIZE"
    case OutputNotAllInitialize => "TA_OUTPUT_NOT_ALL_INITIALIZE"
    case OutOfRangeStartIndex => "TA_OUT_OF_RANGE_START_INDEX"
    case OutOfRangeEndIndex => "TA_OUT_OF_RANGE_END_INDEX"
    case InvalidListType => "TA_INVALID_LIST_TYPE"
    case BadObject => "TA_BAD_OBJECT"
    case NotSupported => "TA_NOT_SUPPORTED"
    case InternalError => "TA_INTERNAL_ERROR"
    case UnknownErr => "TA_UNKNOWN_ERR"
  }

  /** The crate's error type `TaError`. */
  datatype TaError =
    | BadAllocation
    | BadParam
    | FuncNotFound(name: string)
    | Misc(message: string)

  /** `TaResult<T>`: a value or the first error met. */
  datatype Result<+T> = Ok(value: T) | Err(error: TaError) {
    predicate IsFailure() { Err? }
    function PropagateFailure<U>(): Result<U> requires Err? { Err(error) }
    function Extract(): T requires Ok? { value }
  }

  /** A flag of a `bitflags!` set: exactly one bit. */
  predicate SingleBit(b: bv32) { b != 0 && b & (b - 1) == 0 }

  /** `from_bits` of a `bitflags!` set whose flags together cover the bits
      of `defined`: a pattern is accepted only when it uses no other bit,
      and is then kept as it is. */
  function FromBits(defined: bv32, bits: bv32): (r: Option<bv32>)
    ensures r.Some? <==> bits & !defined == 0
    ensures r.Some? ==> r.value == bits && r.value & !defined == 0
  {
    if bits & !defined == 0 then Some(bits) else None
  }

  const UNKNOWN_CODE_PREFIX := "Unknown return code: "

  /** `From<TA_RetCode> for TaError`: allocation failures and bad parameters
      have their own variants, every other code (success included) becomes a
      `Misc` message naming the code; a lookup miss is never produced here. */
  function FromRetCode(code: RetCode): (e: TaError)
    ensures e == BadAllocation <==> code == AllocErr
    ensures e == BadParam <==> code == BadParamCode
    ensures !e.FuncNotFound?
    ensures e.Misc? <==> code != AllocErr && code != BadParamCode
    ensures e.Misc? ==> |e.message| > |UNKNOWN_CODE_PREFIX|
                        && e.message[..|UNKNOWN_CODE_PREFIX|] == UNKNOWN_CODE_PREFIX
                        && e.message[|UNKNOWN_CODE_PREFIX|..] == CodeName(code)
  {
    match code
    case AllocErr => BadAllocation
    case BadParamCode => BadParam
    case _ => Misc(UNKNOWN_CODE_PREFIX + CodeName(code))
  }

  const FUNC_NOT_FOUND_PREFIX := "Function with name "
  const FUNC_NOT_FOUND_SUFFIX := " not found"
  const MISC_PREFIX := "Misc error: "

  /** `Display for TaError`. */
  function Display(e: TaError): string
  {
    match e
    case BadAllocation => "Bad allocation"
    case BadParam => "Bad param"
    case FuncNotFound(name) => FUNC_NOT_FOUND_PREFIX + name + FUNC_NOT_FOUND_SUFFIX
    case Misc(message) => MISC_PREFIX + message
  }

  /** The payload of a `FuncNotFound` or `Misc` error can be read back from its
      rendering: it sits between the variant's fixed prefix and suffix. */
  lemma DisplayEmbedsPayload(e: TaError)
    ensures e.FuncNotFound? ==>
      var s := Display(e);
      |s| == |FUNC_NOT_FOUND_PREFIX| + |e.name| + |FUNC_NOT_FOUND_SUFFIX|
      && s[|FUNC_NOT_FOUND_PREFIX|..|s| - |FUNC_NOT_FOUND_SUFFIX|] == e.name
    ensures e.Misc? ==>
      var s := Display(e);
      |s| == |MISC_PREFIX| + |e.message| && s[|MISC_PREFIX|..] == e.message
  {
    match e
    case FuncNotFound(name) =>
      var s := Display(e);
      assert s == FUNC_NOT_FOUND_PREFIX + name + FUNC_NOT_FOUND_SUFFIX;
      assert s[|FUNC_NOT_FOUND_PREFIX|..|s| - |FUNC_NOT_FOUND_SUFFIX|] == name;
    case Misc(message) =>
      var s := Display(e);
      assert s[|MISC_PREFIX|..] == message;
    case _ =>
  }

  /** Every variant renders with its own prefix, and the payload is kept, so
      two different errors never print the same text. */
  lemma {:induction false} DisplayInjective(a: TaError, b: TaError)
    requires Display(a) == Display(b)
    ensures a == b
  {
    DisplayEmbedsPayload(a);
    DisplayEmbedsPayload(b);
    var s := Display(a);
    // The first character tells the variant family apart ('B', 'F', 'M'),
    // the fifth separates the two fixed messages.
    assert Display(BadAllocation)[0] == 'B' && Display(BadParam)[0] == 'B';
    assert Display(BadAllocation)[4] == 'a' && Display(BadParam)[4] == 'p';
    if a.FuncNotFound? {
      assert s[0] == 'F';
    } else if a.Misc? {
      assert s[0] == 'M';
    }
    if b.FuncNotFound? {
      assert s[0] == 'F';
    } else if b.Misc? {
      assert s[0] == 'M';
    }
  }
}
