/** Input descriptors: the kind of series a function reads (`InputType`),
    the price components it needs (`InputFlags`), and how a descriptor is
    built from the native reflection reply for one input slot. */
module InputParams {
  import opened TaTypes

  datatype InputType = Real | Integer | Price

  /** The native library's `TA_InputParameterType`. */
  datatype NativeInputType = NativePrice | NativeReal | NativeInteger

  /** `From<TA_InputParameterType> for InputType`. */
  function InputTypeFrom(t: NativeInputType): InputType
  {
    match t
    case NativeInteger => Integer
    case NativeReal => Real
    case NativePrice => Price
  }

  /** The native kind each crate kind stands for. */
  function ToNative(k: InputType): NativeInputType
  {
    match k
    case Integer => NativeInteger
    case Real => NativeReal
    case Price => NativePrice
  }

  /** The conversion is a bijection between the three native kinds and the
      three crate kinds. */
  lemma InputTypeFromIsBijection()
    ensures forall t :: ToNative(InputTypeFrom(t)) == t
    ensures forall k :: InputTypeFrom(ToNative(k)) == k
    ensures forall t, u :: InputTypeFrom(t) == InputTypeFrom(u) ==> t == u
  {
  }

  // The `InputFlags` bit set.
  const OPEN: bv32 := 0x01
  const HIGH: bv32 := 0x02
  const LOW: bv32 := 0x04
  const CLOSE: bv32 := 0x08
  const VOLUME: bv32 := 0x10
  const OPEN_INTEREST: bv32 := 0x20
  const TIMESTAMP: bv32 := 0x40
  const ALL_FLAGS: bv32 := OPEN | HIGH | LOW | CLOSE | VOLUME | OPEN_INTEREST | TIMESTAMP

  /** A set of defined input flags (what `InputFlags` can hold). */
  type InputFlags = bits: bv32 | bits & !ALL_FLAGS == 0

  /** `InputFlags::contains`. */
  predicate Contains(flags: bv32, flag: bv32) { flags & flag == flag }

  /** The seven flags are distinct single bits, 0x01 through 0x40, and
      `from_bits` accepts exactly the unions of them. */
  lemma FlagsAreDistinctBits(bits: bv32)
    ensures SingleBit(OPEN) && SingleBit(HIGH) && SingleBit(LOW) && SingleBit(CLOSE)
    ensures SingleBit(VOLUME) && SingleBit(OPEN_INTEREST) && SingleBit(TIMESTAMP)
    ensures OPEN & HIGH == 0 && OPEN & LOW == 0 && OPEN & CLOSE == 0 && OPEN & VOLUME == 0
    ensures OPEN & OPEN_INTEREST == 0 && OPEN & TIMESTAMP == 0
    ensures HIGH & LOW == 0 && HIGH & CLOSE == 0 && HIGH & VOLUME == 0
    ensures HIGH & OPEN_INTEREST == 0 && HIGH & TIMESTAMP == 0
    ensures LOW & CLOSE == 0 && LOW & VOLUME == 0 && LOW & OPEN_INTEREST == 0 && LOW & TIMESTAMP == 0
    ensures CLOSE & VOLUME == 0 && CLOSE & OPEN_INTEREST == 0 && CLOSE & TIMESTAMP == 0
    ensures VOLUME & OPEN_INTEREST == 0 && VOLUME & TIMESTAMP == 0 && OPEN_INTEREST & TIMESTAMP == 0
    ensures FromBits(ALL_FLAGS, bits).Some? <==>
      bits == (bits & OPEN) | (bits & HIGH) | (bits & LOW) | (bits & CLOSE)
            | (bits & VOLUME) | (bits & OPEN_INTEREST) | (bits & TIMESTAMP)
  {
  }

  /** The native reflection record for one input slot. */
  datatype RawInputInfo = RawInputInfo(paramName: string, kind: NativeInputType, flags: InputFlags)

  /** The crate's `Input`; `Input::new` is the constructor and the accessors
      are its fields. */
  datatype Input = Input(name: string, position: nat, kind: InputType, flags: InputFlags)

  /** `TryFrom<(&FuncHandle, usize)> for Input`, given the reply `(code, raw)`
      of the native `TA_GetInputParameterInfo` call for slot `position`. */
  function InputFromReply(position: nat, reply: (RetCode, RawInputInfo)): (r: Result<Input>)
    ensures r.Ok? <==> reply.0 == Success
    ensures r.Err? ==> r.error == FromRetCode(reply.0)
    ensures r.Ok? ==> r.value.position == position
                      && r.value.name == reply.1.paramName
                      && ToNative(r.value.kind) == reply.1.kind
                      && r.value.flags == reply.1.flags
  {
    var (code, raw) := reply;
    if code != Success then Err(FromRetCode(code))
    else
      var flags := FromBits(ALL_FLAGS, raw.flags);
      Ok(Input(raw.paramName, position, InputTypeFrom(raw.kind), flags.value))
  }
}
