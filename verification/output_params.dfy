/** Output descriptors: element kind, rendering-role flags, and how a
    descriptor is built from the native reflection reply. */
module OutputParams {
  import opened TaTypes

  datatype OutputType = Real | Integer

  /** The native library's `TA_OutputParameterType`. */
  datatype NativeOutputType = NativeReal | NativeInteger

  /** `From<TA_OutputParameterType> for OutputType`. */
  function OutputTypeFrom(t: NativeOutputType): OutputType
  {
    match t
    case NativeInteger => Integer
    case NativeReal => Real
  }

  /** Integer outputs stay integer and real outputs stay real, so the
      conversion is one-to-one and onto. */
  lemma OutputTypeFromIsBijection()
    ensures OutputTypeFrom(NativeInteger) == Integer && OutputTypeFrom(NativeReal) == Real
    ensures forall t, u :: OutputTypeFrom(t) == OutputTypeFrom(u) ==> t == u
  {
  }

  // The `OutputFlags` bit set.
  const LINE: bv32 := 0x0001
  const DOT_LINE: bv32 := 0x0002
  const DASH_LINE: bv32 := 0x0004
  const DOT: bv32 := 0x0008
  const HISTOGRAM: bv32 := 0x0010
  const PATTERN_BOOL: bv32 := 0x0020
  const PATTERN_BULL_BEAR: bv32 := 0x0040
  const PATTERN_STRENGTH: bv32 := 0x0080
  const POSITIVE: bv32 := 0x0100
  const NEGATIVE: bv32 := 0x0200
  const ZERO: bv32 := 0x0400
  const UPPER_LIMIT: bv32 := 0x0800
  const LOWER_LIMIT: bv32 := 0x1000

  /** The thirteen flags in declaration order. */
  const FLAGS: seq<bv32> := [LINE, DOT_LINE, DASH_LINE, DOT, HISTOGRAM, PATTERN_BOOL,
    PATTERN_BULL_BEAR, PATTERN_STRENGTH, POSITIVE, NEGATIVE, ZERO, UPPER_LIMIT, LOWER_LIMIT]

  const ALL_FLAGS: bv32 := 0x1FFF

  type OutputFlags = bits: bv32 | bits & !ALL_FLAGS == 0

  /** The thirteen flags are distinct single bits from 0x1 to 0x1000, their
      union is `ALL_FLAGS`, and `from_bits` accepts exactly the unions of
      them: patterns with no bit above 0x1000. */
  lemma FlagsAreDistinctBits(bits: bv32)
    ensures |FLAGS| == 13
    ensures FLAGS[0] == 0x1 && FLAGS[12] == 0x1000
    ensures forall i :: 0 <= i < 13 ==> SingleBit(FLAGS[i])
    ensures forall i, j :: 0 <= i < j < 13 ==> FLAGS[i] & FLAGS[j] == 0
    ensures ALL_FLAGS == LINE | DOT_LINE | DASH_LINE | DOT | HISTOGRAM | PATTERN_BOOL
      | PATTERN_BULL_BEAR | PATTERN_STRENGTH | POSITIVE | NEGATIVE | ZERO | UPPER_LIMIT | LOWER_LIMIT
    ensures FromBits(ALL_FLAGS, bits).Some? <==> bits & 0xFFFF_E000 == 0
  {
  }

  /** The native reflection record for one output slot. */
  datatype RawOutputInfo = RawOutputInfo(kind: NativeOutputType, paramName: string, flags: OutputFlags)

  /** The crate's `Output`, with its binding slot as `position`. */
  datatype Output = Output(name: string, position: nat, kind: OutputType, flags: OutputFlags)

  /** `TryFrom<(&FuncHandle, usize)> for Output`, given the reply of the
      native `TA_GetOutputParameterInfo` call for slot `position`. */
  function OutputFromReply(position: nat, reply: (RetCode, RawOutputInfo)): (r: Result<Output>)
    ensures r.Ok? <==> reply.0 == Success
    ensures r.Err? ==> r.error == FromRetCode(reply.0)
    ensures r.Ok? ==> r.value.position == position
                      && r.value.name == reply.1.paramName
                      && r.value.kind == OutputTypeFrom(reply.1.kind)
                      && r.value.flags == reply.1.flags
  {
    var (code, raw) := reply;
    if code != Success then Err(FromRetCode(code))
    else
      var flags := FromBits(ALL_FLAGS, raw.flags);
      Ok(Output(raw.paramName, position, OutputTypeFrom(raw.kind), flags.value))
  }
}
