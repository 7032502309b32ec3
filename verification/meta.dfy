/** The function catalog (`Meta`): every group of the native library, each
    mapped to the descriptors of its functions, built by a nested walk that
    aborts on the first failure. */
module Meta {
  import opened TaTypes
  import opened Registry
  import FuncHandles
  import opened FuncInfos

  /** Group name to function name to descriptor. */
  datatype Meta = Meta(data: map<string, map<string, FuncInfo>>)

  /** `GroupTable::new`: the group names, or the error of the allocation. */
  function GroupTableNew(reg: Registry): (r: Result<seq<string>>)
    ensures r.Ok? <==> reg.groupTable.0 == Success
    ensures r.Ok? ==> r.value == reg.groupTable.1
    ensures r.Err? ==> r.error == FromRetCode(reg.groupTable.0)
  {
    var (code, names) := reg.groupTable;
    if code != Success then Err(FromRetCode(code)) else Ok(names)
  }

  /** `FuncTable::new(group)`: the function names of a group, or the error
      of the allocation. */
  function FuncTableNew(reg: Registry, group: string): (r: Result<seq<string>>)
    ensures r.Ok? <==> reg.funcTable(group).0 == Success
    ensures r.Ok? ==> r.value == reg.funcTable(group).1
    ensures r.Err? ==> r.error == FromRetCode(reg.funcTable(group).0)
  {
    var (code, names) := reg.funcTable(group);
    if code != Success then Err(FromRetCode(code)) else Ok(names)
  }

  /** Inserting `key => step(key)` for each key in order into an empty map,
      aborting at the first key whose step fails. */
  function InsertAll<V>(keys: seq<string>, step: string -> Result<V>): (r: Result<map<string, V>>)
    ensures r.Ok? <==> forall i :: 0 <= i < |keys| ==> step(keys[i]).Ok?
    ensures r.Ok? ==> r.value.Keys == set i | 0 <= i < |keys| :: keys[i]
    ensures r.Ok? ==> forall k :: k in r.value ==> step(k) == Ok(r.value[k])
    decreases |keys|
  {
    if |keys| == 0 then Ok(map[])
    else
      var m :- InsertAll(keys[..|keys| - 1], step);
      var v :- step(keys[|keys| - 1]);
      Ok(m[keys[|keys| - 1] := v])
  }

  /** When every key before `i` succeeds and key `i` fails, the whole walk
      fails with the error of key `i`, whatever follows. */
  lemma {:induction false} InsertAllFailsAt<V>(keys: seq<string>, step: string -> Result<V>, i: nat)
    requires i < |keys|
    requires InsertAll(keys[..i], step).Ok?
    requires step(keys[i]).Err?
    ensures InsertAll(keys, step) == Err(step(keys[i]).error)
    decreases |keys|
  {
    if i < |keys| - 1 {
      assert keys[..|keys| - 1][..i] == keys[..i];
      InsertAllFailsAt(keys[..|keys| - 1], step, i);
    } else {
      assert keys[..|keys| - 1] == keys[..i];
    }
  }

  /** One step of the inner walk: `FuncHandle::new(name)` then
      `FuncInfo::try_from(handle)`. */
  function FuncStep(reg: Registry): string -> Result<FuncInfo>
  {
    (name: string) => (var h :- FuncHandles.New(reg, name); FuncInfoOf(reg, h))
  }

  /** One step of the outer walk: the group's function table, then the inner
      walk over its names. */
  function GroupStep(reg: Registry): string -> Result<map<string, FuncInfo>>
  {
    (group: string) => (var names :- FuncTableNew(reg, group); InsertAll(names, FuncStep(reg)))
  }

  /** `Meta::new`, as a value. */
  function MetaOf(reg: Registry): Result<Meta>
  {
    var groups :- GroupTableNew(reg);
    var data :- InsertAll(groups, GroupStep(reg));
    Ok(Meta(data))
  }

  /** The inner loop of `Meta::new`: one group's function names, each
      resolved to a handle and read into a descriptor, stopping at the first
      failure. */
  method GroupFuncs(reg: Registry, names: seq<string>) returns (r: Result<map<string, FuncInfo>>)
    ensures r == InsertAll(names, FuncStep(reg))
  {
    var funcData: map<string, FuncInfo> := map[];
    for fi := 0 to |names|
      invariant InsertAll(names[..fi], FuncStep(reg)) == Ok(funcData)
    {
      var name := names[fi];
      var handle := FuncHandles.New(reg, name);
      if handle.Err? {
        InsertAllFailsAt(names, FuncStep(reg), fi);
        return Err(handle.error);
      }
      var info := TryFromHandle(reg, handle.value);
      if info.Err? {
        InsertAllFailsAt(names, FuncStep(reg), fi);
        return Err(info.error);
      }
      assert names[..fi + 1][..fi] == names[..fi];
      funcData := funcData[name := info.value];
    }
    assert names[..|names|] == names;
    return Ok(funcData);
  }

  /** `Meta::new`: the outer loop over the groups, with `?` exits. */
  method New(reg: Registry) returns (r: Result<Meta>)
    ensures r == MetaOf(reg)
  {
    var groups :- GroupTableNew(reg);
    var data: map<string, map<string, FuncInfo>> := map[];
    for gi := 0 to |groups|
      invariant InsertAll(groups[..gi], GroupStep(reg)) == Ok(data)
    {
      var group := groups[gi];
      var funcTable := FuncTableNew(reg, group);
      if funcTable.Err? {
        InsertAllFailsAt(groups, GroupStep(reg), gi);
        return Err(funcTable.error);
      }
      var funcData := GroupFuncs(reg, funcTable.value);
      if funcData.Err? {
        InsertAllFailsAt(groups, GroupStep(reg), gi);
        return Err(funcData.error);
      }
      assert groups[..gi + 1][..gi] == groups[..gi];
      data := data[group := funcData.value];
    }
    assert groups[..|groups|] == groups;
    return Ok(Meta(data));
  }

  /** On success the catalog is keyed by exactly the group table's names,
      each group by exactly its function table's names, and each entry is
      the descriptor recovered from the handle that name resolves to. */
  lemma CatalogMatchesTables(reg: Registry)
    requires MetaOf(reg).Ok?
    ensures reg.groupTable.0 == Success
    ensures MetaOf(reg).value.data.Keys == set g | g in reg.groupTable.1
    ensures forall g :: g in MetaOf(reg).value.data ==>
              && reg.funcTable(g).0 == Success
              && MetaOf(reg).value.data[g].Keys == set f | f in reg.funcTable(g).1
    ensures forall g, f :: g in MetaOf(reg).value.data && f in MetaOf(reg).value.data[g] ==>
              && reg.funcHandle(f).0 == Success
              && MetaOf(reg).value.data[g][f] == FuncInfoOf(reg, reg.funcHandle(f).1).value
  {
    var groups := reg.groupTable.1;
    var data := MetaOf(reg).value.data;
    assert (set g | g in groups) == set i | 0 <= i < |groups| :: groups[i];
    forall g | g in data
      ensures reg.funcTable(g).0 == Success
      ensures data[g].Keys == set f | f in reg.funcTable(g).1
    {
      assert GroupStep(reg)(g) == Ok(data[g]);
      var names := reg.funcTable(g).1;
      assert (set f | f in names) == set i | 0 <= i < |names| :: names[i];
    }
    forall g, f | g in data && f in data[g]
      ensures reg.funcHandle(f).0 == Success
      ensures data[g][f] == FuncInfoOf(reg, reg.funcHandle(f).1).value
    {
      assert GroupStep(reg)(g) == Ok(data[g]);
      assert FuncStep(reg)(f) == Ok(data[g][f]);
    }
  }

  /** The walk fails exactly when the group table or some group's step
      fails: no partial catalog is ever returned. */
  lemma CatalogFailsIffSomeStepFails(reg: Registry)
    ensures MetaOf(reg).Err? <==>
      || reg.groupTable.0 != Success
      || exists g :: g in reg.groupTable.1 && GroupStep(reg)(g).Err?
  {
    var groups := reg.groupTable.1;
    if reg.groupTable.0 == Success && exists g :: g in groups && GroupStep(reg)(g).Err? {
      var g :| g in groups && GroupStep(reg)(g).Err?;
      var i :| 0 <= i < |groups| && groups[i] == g;
      assert !GroupStep(reg)(groups[i]).Ok?;
    }
  }

  /** A group's step fails exactly when its function table or the step of
      one of its names fails. */
  lemma GroupFailsIffSomeNameFails(reg: Registry, g: string)
    ensures GroupStep(reg)(g).Err? <==>
      || reg.funcTable(g).0 != Success
      || exists f :: f in reg.funcTable(g).1 && FuncStep(reg)(f).Err?
  {
    var names := reg.funcTable(g).1;
    if reg.funcTable(g).0 == Success && exists f :: f in names && FuncStep(reg)(f).Err? {
      var f :| f in names && FuncStep(reg)(f).Err?;
      var i :| 0 <= i < |names| && names[i] == f;
      assert !FuncStep(reg)(names[i]).Ok?;
    }
  }

  /** A name's step fails exactly when its handle or its descriptor
      cannot be obtained. */
  lemma NameFailsIffHandleOrInfoFails(reg: Registry, f: string)
    ensures FuncStep(reg)(f).Err? <==>
      || reg.funcHandle(f).0 != Success
      || FuncInfoOf(reg, reg.funcHandle(f).1).Err?
  {
  }

  /** An empty group table gives an empty catalog, not an error. */
  lemma EmptyGroupTableGivesEmptyCatalog(reg: Registry)
    requires reg.groupTable == (Success, [])
    ensures MetaOf(reg) == Ok(Meta(map[]))
  {
  }
}
