/** Resolving a function name to a native handle (`FuncHandle`). */
module FuncHandles {
  import opened TaTypes
  import opened Registry

  const CSTRING_ERROR := "Can't convert {} to cstring"

  /** `FuncHandle::new`: a successful lookup yields the native handle, a
      lookup miss names the function looked up, and every other code goes
      through `From<TA_RetCode>`. */
  function New(reg: Registry, name: string): (r: Result<Handle>)
    ensures reg.funcHandle(name).0 == Success ==> r == Ok(reg.funcHandle(name).1)
    ensures reg.funcHandle(name).0 == FuncNotFoundCode ==> r == Err(FuncNotFound(name))
    ensures reg.funcHandle(name).0 !in {Success, FuncNotFoundCode} ==>
              r == Err(FromRetCode(reg.funcHandle(name).0))
  {
    var (code, handle) := reg.funcHandle(name);
    match code
    case Success => Ok(handle)
    case FuncNotFoundCode => Err(FuncNotFound(name))
    case _ => Err(FromRetCode(code))
  }

  /** Whether `CString::new` accepts the text: it must hold no NUL character. */
  predicate IsCString(s: string) { '\0' !in s }

  /** `TryFrom<&str> for FuncHandle`: a name holding a NUL fails with `Misc`
      and no lookup is made; any other name is looked up with `New`. */
  function TryFromStr(reg: Registry, name: string): (r: Result<Handle>)
    ensures !IsCString(name) ==> r == Err(Misc(CSTRING_ERROR))
    ensures IsCString(name) ==> r == New(reg, name)
    ensures r.Ok? ==> IsCString(name) && reg.funcHandle(name) == (Success, r.value)
  {
    if !IsCString(name) then Err(Misc(CSTRING_ERROR)) else New(reg, name)
  }

  /** The only way to a `FuncNotFound` error is a lookup that the native side
      answered with its not-found code, and the error carries the name asked
      for; this is what the "Invalid" test expects. */
  lemma NotFoundCarriesName(reg: Registry, name: string)
    ensures TryFromStr(reg, name).Err? && TryFromStr(reg, name).error.FuncNotFound? <==>
              IsCString(name) && reg.funcHandle(name).0 == FuncNotFoundCode
    ensures TryFromStr(reg, name).Err? && TryFromStr(reg, name).error.FuncNotFound? ==>
              TryFromStr(reg, name).error == FuncNotFound(name)
  {
  }
}
