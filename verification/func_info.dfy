/** Expanding a native handle into the full descriptor of one function
    (`FuncInfo`): its names and its three parameter arrays, read slot by slot. */
module FuncInfos {
  import opened TaTypes
  import opened Registry
  import opened InputParams
  import opened OptInputParams
  import opened OutputParams

  /** The crate's `FuncInfo`; its accessors are the fields. */
  datatype FuncInfo = FuncInfo(
    handle: Handle,
    name: string,
    camelCaseName: string,
    hint: string,
    group: string,
    params: seq<OptInput>,
    inputs: seq<Input>,
    outputs: seq<Output>)

  /** Reading slots `0 .. count - 1` in increasing order, stopping at the
      first slot whose read fails: on success one element per slot, element
      `i` being what slot `i` read. */
  function ReadAll<T>(read: nat -> Result<T>, count: nat): (r: Result<seq<T>>)
    ensures r.Ok? <==> forall i :: 0 <= i < count ==> read(i).Ok?
    ensures r.Ok? ==> |r.value| == count
    ensures r.Ok? ==> forall i :: 0 <= i < count ==> read(i) == Ok(r.value[i])
    decreases count
  {
    if count == 0 then Ok([])
    else
      var prefix :- ReadAll(read, count - 1);
      var last :- read(count - 1);
      Ok(prefix + [last])
  }

  /** Once a prefix of the slots fails, every longer prefix fails with the
      same error: the walk aborts at the first failure. */
  lemma {:induction false} ReadAllStaysFailed<T>(read: nat -> Result<T>, j: nat, k: nat)
    requires j <= k
    requires ReadAll(read, j).Err?
    ensures ReadAll(read, k) == ReadAll(read, j)
    decreases k
  {
    if k > j {
      ReadAllStaysFailed(read, j, k - 1);
    }
  }

  /** A failed read reports the error of the lowest failing slot, and every
      slot below it was read successfully. */
  lemma {:induction false} ReadAllFirstFailure<T>(read: nat -> Result<T>, count: nat)
    requires ReadAll(read, count).Err?
    ensures exists i :: 0 <= i < count && read(i).Err?
              && ReadAll(read, count).error == read(i).error
              && forall j :: 0 <= j < i ==> read(j).Ok?
    decreases count
  {
    assert count > 0;
    if ReadAll(read, count - 1).Err? {
      ReadAllFirstFailure(read, count - 1);
    } else {
      assert read(count - 1).Err? && ReadAll(read, count).error == read(count - 1).error;
    }
  }

  /** `FuncInfo::func_params`: the index loop with early return. */
  method FuncParams<T>(read: nat -> Result<T>, count: nat) returns (r: Result<seq<T>>)
    ensures r == ReadAll(read, count)
  {
    var params: seq<T> := [];
    for i := 0 to count
      invariant ReadAll(read, i) == Ok(params)
    {
      var param := read(i);
      if param.Err? {
        assert ReadAll(read, i + 1) == Err(param.error);
        ReadAllStaysFailed(read, i + 1, count);
        return Err(param.error);
      }
      params := params + [param.value];
    }
    return Ok(params);
  }

  /** The readers `T::try_from((handle, i))` for the three slot kinds. */
  function OptInputReader(reg: Registry, h: Handle): nat -> Result<OptInput>
  {
    (i: nat) => OptInputFromReply(i, reg.optInputInfo(h, i))
  }

  function InputReader(reg: Registry, h: Handle): nat -> Result<Input>
  {
    (i: nat) => InputFromReply(i, reg.inputInfo(h, i))
  }

  function OutputReader(reg: Registry, h: Handle): nat -> Result<Output>
  {
    (i: nat) => OutputFromReply(i, reg.outputInfo(h, i))
  }

  /** `TryFrom<FuncHandle> for FuncInfo`, as a value: the function record
      first, then the optional parameters, inputs and outputs in that order. */
  function FuncInfoOf(reg: Registry, h: Handle): Result<FuncInfo>
  {
    var (code, raw) := reg.funcInfo(h);
    if code != Success then Err(FromRetCode(code))
    else
      var params :- ReadAll(OptInputReader(reg, h), raw.nbOptInput);
      var inputs :- ReadAll(InputReader(reg, h), raw.nbInput);
      var outputs :- ReadAll(OutputReader(reg, h), raw.nbOutput);
      Ok(FuncInfo(h, raw.name, raw.camelCaseName, raw.hint, raw.group, params, inputs, outputs))
  }

  /** `TryFrom<FuncHandle> for FuncInfo`. */
  method TryFromHandle(reg: Registry, h: Handle) returns (r: Result<FuncInfo>)
    ensures r == FuncInfoOf(reg, h)
  {
    var (code, raw) := reg.funcInfo(h);
    if code != Success {
      return Err(FromRetCode(code));
    }
    var params :- FuncParams(OptInputReader(reg, h), raw.nbOptInput);
    var inputs :- FuncParams(InputReader(reg, h), raw.nbInput);
    var outputs :- FuncParams(OutputReader(reg, h), raw.nbOutput);
    return Ok(FuncInfo(h, raw.name, raw.camelCaseName, raw.hint, raw.group, params, inputs, outputs));
  }

  /** A recovered descriptor is never short or padded: it has exactly the
      slot counts the native record declares, slot `i` of each array sits at
      position `i`, the names are copied from the native record, and a failed
      `TA_GetFuncInfo` is reported before any slot is read. */
  lemma {:induction false} FuncInfoMatchesNativeRecord(reg: Registry, h: Handle)
    ensures reg.funcInfo(h).0 != Success ==> FuncInfoOf(reg, h) == Err(FromRetCode(reg.funcInfo(h).0))
    ensures FuncInfoOf(reg, h).Ok? ==>
      var info := FuncInfoOf(reg, h).value;
      var raw := reg.funcInfo(h).1;
      && info.handle == h
      && info.name == raw.name && info.camelCaseName == raw.camelCaseName
      && info.hint == raw.hint && info.group == raw.group
      && |info.params| == raw.nbOptInput
      && |info.inputs| == raw.nbInput
      && |info.outputs| == raw.nbOutput
      && (forall i :: 0 <= i < |info.params| ==> info.params[i].position == i)
      && (forall i :: 0 <= i < |info.inputs| ==> info.inputs[i].position == i)
      && (forall i :: 0 <= i < |info.outputs| ==> info.outputs[i].position == i)
  {
    var (code, raw) := reg.funcInfo(h);
    if code == Success && FuncInfoOf(reg, h).Ok? {
      var info := FuncInfoOf(reg, h).value;
      var params := ReadAll(OptInputReader(reg, h), raw.nbOptInput);
      var inputs := ReadAll(InputReader(reg, h), raw.nbInput);
      var outputs := ReadAll(OutputReader(reg, h), raw.nbOutput);
      assert params.Ok? && inputs.Ok? && outputs.Ok?;
      assert info.params == params.value && info.inputs == inputs.value && info.outputs == outputs.value;
      forall i | 0 <= i < |info.params| ensures info.params[i].position == i {
        var reply := reg.optInputInfo(h, i);
        assert OptInputReader(reg, h)(i) == OptInputFromReply(i, reply);
        assert OptInputFromReply(i, reply) == Ok(info.params[i]);
      }
      forall i | 0 <= i < |info.inputs| ensures info.inputs[i].position == i {
        var reply := reg.inputInfo(h, i);
        assert InputReader(reg, h)(i) == InputFromReply(i, reply);
        assert InputFromReply(i, reply) == Ok(info.inputs[i]);
      }
      forall i | 0 <= i < |info.outputs| ensures info.outputs[i].position == i {
        var reply := reg.outputInfo(h, i);
        assert OutputReader(reg, h)(i) == OutputFromReply(i, reply);
        assert OutputFromReply(i, reply) == Ok(info.outputs[i]);
      }
    }
  }
}
