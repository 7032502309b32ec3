/** Optional-parameter descriptors: their scalar kind, unit flags, default
    value, and how a descriptor is built from the native reflection reply. */
module OptInputParams {
  import opened TaTypes

  datatype OptInputType = Real | Integer

  /** The native library's `TA_OptInputParameterType`. */
  datatype NativeOptInputType = RealRange | RealList | IntegerRange | IntegerList

  /** `From<TA_OptInputParameterType> for OptInputType`: both integer shapes
      become `Integer`, both real shapes become `Real`. */
  function OptInputTypeFrom(t: NativeOptInputType): OptInputType
  {
    match t
    case IntegerList | IntegerRange => Integer
    case RealList | RealRange => Real
  }

  /** Whether a native shape holds integers. */
  predicate IsIntegerShape(t: NativeOptInputType) { t == IntegerList || t == IntegerRange }

  /** The conversion keeps exactly the integer/real distinction of the native
      shape, and both crate kinds are reached. */
  lemma OptInputTypeFromKeepsNumericKind()
    ensures forall t :: OptInputTypeFrom(t) == Integer <==> IsIntegerShape(t)
    ensures forall t :: OptInputTypeFrom(t) == Real <==> !IsIntegerShape(t)
    ensures OptInputTypeFrom(IntegerRange) == Integer && OptInputTypeFrom(RealRange) == Real
  {
  }

  // The `OptInputFlags` bit set.
  const PERCENT: bv32 := 0x0010_0000
  const DEGREE: bv32 := 0x0020_0000
  const CURRENCY: bv32 := 0x0040_0000
  const ADVANCED: bv32 := 0x0100_0000
  const ALL_FLAGS: bv32 := PERCENT | DEGREE | CURRENCY | ADVANCED

  type OptInputFlags = bits: bv32 | bits & !ALL_FLAGS == 0

  /** The four flags are distinct single bits at or above 0x00100000;
      `from_bits` rejects any other bit, the low twenty in particular. */
  lemma FlagsAreDistinctBits(bits: bv32)
    ensures SingleBit(PERCENT) && SingleBit(DEGREE) && SingleBit(CURRENCY) && SingleBit(ADVANCED)
    ensures PERCENT & DEGREE == 0 && PERCENT & CURRENCY == 0 && PERCENT & ADVANCED == 0
    ensures DEGREE & CURRENCY == 0 && DEGREE & ADVANCED == 0 && CURRENCY & ADVANCED == 0
    ensures PERCENT >= 0x0010_0000 && DEGREE >= 0x0010_0000
    ensures CURRENCY >= 0x0010_0000 && ADVANCED >= 0x0010_0000
    ensures FromBits(ALL_FLAGS, bits).Some? ==> bits & 0x000F_FFFF == 0
    ensures FromBits(ALL_FLAGS, bits).Some? <==>
      bits == (bits & PERCENT) | (bits & DEGREE) | (bits & CURRENCY) | (bits & ADVANCED)
  {
  }

  /** The native reflection record for one optional-parameter slot. */
  datatype RawOptInputInfo = RawOptInputInfo(
    kind: NativeOptInputType,
    paramName: string,
    flags: OptInputFlags,
    displayName: string,
    defaultValue: real,
    hint: string)

  /** The crate's `OptInput`, with its binding slot as `position`. */
  datatype OptInput = OptInput(
    name: string,
    position: nat,
    kind: OptInputType,
    displayName: string,
    default: real,
    hint: string,
    flags: OptInputFlags)

  /** `TryFrom<(&FuncHandle, usize)> for OptInput`, given the reply of the
      native `TA_GetOptInputParameterInfo` call for slot `position`. */
  function OptInputFromReply(position: nat, reply: (RetCode, RawOptInputInfo)): (r: Result<OptInput>)
    ensures r.Ok? <==> reply.0 == Success
    ensures r.Err? ==> r.error == FromRetCode(reply.0)
    ensures r.Ok? ==> r.value.position == position
                      && r.value.name == reply.1.paramName
                      && r.value.displayName == reply.1.displayName
                      && r.value.hint == reply.1.hint
                      && r.value.default == reply.1.defaultValue
                      && r.value.flags == reply.1.flags
                      && (r.value.kind == Integer <==> IsIntegerShape(reply.1.kind))
  {
    var (code, raw) := reply;
    if code != Success then Err(FromRetCode(code))
    else
      var flags := FromBits(ALL_FLAGS, raw.flags);
      Ok(OptInput(raw.paramName, position, OptInputTypeFrom(raw.kind), raw.displayName,
                  raw.defaultValue, raw.hint, flags.value))
  }
}
