/** How a query hands its outcome to the caller: through a callback, or as a
    settled promise; and what a chained call gives back. */
module Outcomes {
  import opened JsValues

  /** The terminal delivery of a query. A promise is modelled by the state it
      settles in, not by its scheduling. */
  datatype Delivery =
    | CallbackCalled(callback: Value, err: Value, data: Value)
    | Rejected(reason: Value)
    | Resolved(value: Value)

  /** What a chained call returns: the query itself, for further chaining, or
      whatever the caller's callback returns when called with `(err, data)`. */
  datatype Continuation =
    | ReturnThis
    | ReturnCallbackResult(callback: Value, err: Value, data: Value)

  /** The delivery rule shared by `exec` in both doubles: a callback receives
      `(err, data)` verbatim; otherwise the promise rejects with `err` when
      `err != null` and resolves with `data` when it is null or undefined. */
  function Deliver(callback: Option<Value>, err: Value, data: Value): (d: Delivery)
    ensures d.CallbackCalled? <==> callback.Some?
    ensures d.Rejected? <==> callback.None? && !IsNullish(err)
    ensures d.Resolved? <==> callback.None? && IsNullish(err)
    ensures d.CallbackCalled? ==> d.callback == callback.value && d.err == err && d.data == data
    ensures d.Rejected? ==> d.reason == err
    ensures d.Resolved? ==> d.value == data
  {
    match callback
    case Some(f) => CallbackCalled(f, err, data)
    case None => if !IsNullish(err) then Rejected(err) else Resolved(data)
  }

  /** Where `p.then(onFulfilled, onRejected)` leads for a settled promise `p`:
      the matching handler is called with the settled value, or, when that
      handler is not a function, the promise's state passes through. */
  datatype Settled =
    | HandlerCalled(handler: Value, argument: Value)
    | PassedFulfilled(value: Value)
    | PassedRejected(reason: Value)

  function Settle(p: Delivery, onFulfilled: Value, onRejected: Value): Settled
    requires !p.CallbackCalled?
  {
    match p
    case Resolved(v) => if IsFunction(onFulfilled) then HandlerCalled(onFulfilled, v) else PassedFulfilled(v)
    case Rejected(e) => if IsFunction(onRejected) then HandlerCalled(onRejected, e) else PassedRejected(e)
  }

  /** `then` on the promise path: the declared `err` reaches the rejection
      handler when it is not null, the declared `data` reaches the fulfilment
      handler otherwise, and the other handler is never called. */
  lemma PromiseThenRouting(err: Value, data: Value, onFulfilled: Value, onRejected: Value)
    ensures var s := Settle(Deliver(None, err, data), onFulfilled, onRejected);
      (!IsNullish(err) ==>
         s == (if IsFunction(onRejected) then HandlerCalled(onRejected, err) else PassedRejected(err))) &&
      (IsNullish(err) ==>
         s == (if IsFunction(onFulfilled) then HandlerCalled(onFulfilled, data) else PassedFulfilled(data)))
  {
  }
}
