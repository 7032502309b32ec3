/** The native library's reflection interface, as an abstract oracle: every
    call returns a return code and a payload (which callers may read only
    when the code is `Success`). */
module Registry {
  import opened TaTypes
  import opened InputParams
  import opened OptInputParams
  import opened OutputParams

  /** An opaque native function handle (`*const TA_FuncHandle`). */
  datatype Handle = Handle(id: nat)

  /** The native `TA_FuncInfo` record: names and the three slot counts. */
  datatype RawFuncInfo = RawFuncInfo(
    name: string,
    camelCaseName: string,
    hint: string,
    group: string,
    nbOptInput: nat,
    nbInput: nat,
    nbOutput: nat)

  datatype Registry = Registry(
    /** `TA_GroupTableAlloc`: the group names. */
    groupTable: (RetCode, seq<string>),
    /** `TA_FuncTableAlloc(group)`: the function names of one group. */
    funcTable: string -> (RetCode, seq<string>),
    /** `TA_GetFuncHandle(name)`. */
    funcHandle: string -> (RetCode, Handle),
    /** `TA_GetFuncInfo(handle)`. */
    funcInfo: Handle -> (RetCode, RawFuncInfo),
    /** `TA_GetOptInputParameterInfo(handle, index)`. */
    optInputInfo: (Handle, nat) -> (RetCode, RawOptInputInfo),
    /** `TA_GetInputParameterInfo(handle, index)`. */
    inputInfo: (Handle, nat) -> (RetCode, RawInputInfo),
    /** `TA_GetOutputParameterInfo(handle, index)`. */
    outputInfo: (Handle, nat) -> (RetCode, RawOutputInfo))
}
