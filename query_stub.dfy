/** The simple query stub: one stored `(err, data)` pair that every chain of
    calls ends in, whatever was chained before. */
module QueryStub {
  import opened JsValues
  import opened CallbackUtil
  import opened Outcomes

  class Query {
    /** The chainable function table: name to "accepts a trailing callback". */
    const registry: map<string, bool>
    var err: Value
    var data: Value

    /** An empty constructor: both fields start out undefined. */
    constructor (registry: map<string, bool>)
      ensures this.registry == registry
      ensures err == Undefined && data == Undefined
    {
      this.registry := registry;
      err, data := Undefined, Undefined;
    }

    /** Overwrites both stored fields; nothing else changes. */
    method Returns(err: Value, data: Value)
      modifies this
      ensures this.err == err && this.data == data
    {
      this.err := err;
      this.data := data;
    }

    /** A trailing function is called with the stored pair and nothing is
        returned; otherwise a promise rejects with `err` when it is not null
        and resolves with `data` when it is. */
    method Exec(parameters: seq<Value>) returns (d: Delivery)
      ensures d == Deliver(Callback(parameters), err, data)
      ensures Callback(parameters).Some? ==>
        d == CallbackCalled(parameters[|parameters| - 1], err, data)
      ensures Callback(parameters).None? && !IsNullish(err) ==> d == Rejected(err)
      ensures Callback(parameters).None? && IsNullish(err) ==> d == Resolved(data)
    {
      d := Deliver(Callback(parameters), err, data);
    }

    /** `exec()` with no arguments, so always the promise path, followed by
        the given handlers. */
    method Then(onFulfilled: Value, onRejected: Value) returns (s: Settled)
      ensures s == Settle(Deliver(None, err, data), onFulfilled, onRejected)
    {
      var p := Exec([]);
      s := Settle(p, onFulfilled, onRejected);
    }

    /** `exec()` followed by `then(null, onRejected)`: a success passes through. */
    method Catch(onRejected: Value) returns (s: Settled)
      ensures IsNullish(err) ==> s == PassedFulfilled(data)
      ensures !IsNullish(err) ==>
        s == (if IsFunction(onRejected) then HandlerCalled(onRejected, err) else PassedRejected(err))
    {
      var p := Exec([]);
      s := Settle(p, Null, onRejected);
    }

    /** A generated chainable function. A callback-capable one given a
        trailing function returns that function's result on the stored pair;
        every other call returns the query itself, whatever its arguments.
        Having no modifies clause, no chainable function changes `err` or `data`. */
    method Chain(name: string, parameters: seq<Value>) returns (c: Continuation)
      requires name in registry
      ensures registry[name] && Callback(parameters).Some? ==>
        c == ReturnCallbackResult(parameters[|parameters| - 1], err, data)
      ensures !registry[name] || Callback(parameters).None? ==> c == ReturnThis
    {
      var callback := Callback(parameters);
      if registry[name] && callback.Some? {
        c := ReturnCallbackResult(callback.value, err, data);
      } else {
        c := ReturnThis;
      }
    }
  }
}
