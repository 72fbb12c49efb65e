/** The callback convention of the emulated library: a chained call or `exec`
    whose last argument is a function is a callback-style call, and that
    function is the callback. */
module CallbackUtil {
  import opened JsValues

  /** The trailing callback of an argument list, if the last argument is a function. */
  function Callback(args: seq<Value>): (cb: Option<Value>)
    ensures cb.Some? <==> |args| > 0 && IsFunction(args[|args| - 1])
    ensures cb.Some? ==> cb.value == args[|args| - 1]
    ensures args == [] ==> cb == None
  {
    if |args| > 0 && IsFunction(args[|args| - 1]) then Some(args[|args| - 1]) else None
  }

  /** The argument list with a trailing callback removed, so that argument
      matching ignores the callback slot. Putting the callback back gives the
      original list, and only a function is ever removed. */
  function WithoutCallback(args: seq<Value>): (rest: seq<Value>)
    ensures Callback(args).None? ==> rest == args
    ensures Callback(args).Some? ==>
      IsFunction(Callback(args).value) && rest + [Callback(args).value] == args
  {
    if Callback(args).Some? then args[..|args| - 1] else args
  }
}
