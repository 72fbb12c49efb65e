/** The record/replay query mock. Calling the module's export builds a fresh
    `Query` class whose static `proto` collects assertion chains; the first
    `new Query()` captures them and removes `proto`, and each chained call on
    the instance is then matched against them. */
module QueryMock {
  import opened JsValues
  import opened CallbackUtil
  import opened Outcomes
  import opened MockChains

  /** What the mock throws. */
  datatype Thrown =
    /** "invoked query with incorrect chain", naming the execution chain. */
    | IncorrectChain(trace: seq<CallRecord>)
    /** The TypeError of reading `err` from a `returns` that is still null. */
    | NullReturns

  datatype Result<T> = Ok(value: T) | Throws(error: Thrown)

  /** The `Query` class value one call of the export returns, with its static
      declaration surface `Query.proto`. */
  class QueryClass {
    /** The chainable function table: name to "accepts a trailing callback". */
    const registry: map<string, bool>
    /** `Query.proto._chains` */
    var chains: seq<AssertionChain>
    /** False once `delete Query.proto` has run. */
    var protoPresent: bool

    ghost predicate Valid()
      reads this
    {
      WellFormed(chains)
    }

    /** Building the class: `proto` holds a single open chain. */
    constructor (registry: map<string, bool>)
      ensures Valid()
      ensures this.registry == registry && chains == [OpenChain] && protoPresent
    {
      this.registry := registry;
      chains := [OpenChain];
      protoPresent := true;
    }

    /** `Query.proto.returns(err, data)`: closes the last chain with the
        outcome and opens a new one. Once `proto` is gone the call fails with
        a TypeError (`ok` false) and changes nothing. */
    method Returns(err: Value, data: Value) returns (ok: bool)
      requires Valid()
      modifies this
      ensures Valid()
      ensures ok == old(protoPresent) && protoPresent == old(protoPresent)
      ensures chains == if ok then CloseLast(old(chains), Outcome(err, data)) else old(chains)
    {
      ok := protoPresent;
      if ok {
        chains := CloseLast(chains, Outcome(err, data));
      }
    }

    /** `Query.proto[name].withArgs(...argMatchers)`: appends one record to
        the last chain. It returns `proto` itself, so further declarations
        continue on this same object. */
    method WithArgs(name: string, argMatchers: seq<Value>) returns (ok: bool)
      requires Valid() && name in registry
      modifies this
      ensures Valid()
      ensures ok == old(protoPresent) && protoPresent == old(protoPresent)
      ensures chains == if ok then AppendToLast(old(chains), CallRecord(name, argMatchers)) else old(chains)
    {
      ok := protoPresent;
      if ok {
        chains := AppendToLast(chains, CallRecord(name, argMatchers));
      }
    }

    /** `new Query()`: the instance captures the declared chains and `proto`
        is removed. A second construction finds `proto` gone and fails with a
        TypeError, modelled as `null`. */
    method New() returns (q: Query?)
      requires Valid()
      modifies this
      ensures Valid() && !protoPresent && chains == old(chains)
      ensures (q != null) == old(protoPresent)
      ensures q != null ==> fresh(q) && q.registry == registry
      ensures q != null ==> q.assertionChains == chains && q.trace == [] && q.adopted == None
    {
      if !protoPresent {
        q := null;
        return;
      }
      q := new Query(registry, chains);
      protoPresent := false;
    }
  }

  /** A live mock instance. */
  class Query {
    const registry: map<string, bool>
    /** The assertion chains captured at construction; nothing can change them afterwards. */
    const assertionChains: seq<AssertionChain>
    /** `executionChain.chain`: the calls made since the last `exec`. */
    var trace: seq<CallRecord>
    /** `executionChain.returns`: the outcome adopted from the last match. */
    var adopted: Option<Outcome>

    /** The execution chain starts empty, with `returns` null. */
    constructor (registry: map<string, bool>, chains: seq<AssertionChain>)
      ensures this.registry == registry && assertionChains == chains
      ensures trace == [] && adopted == None
    {
      this.registry := registry;
      assertionChains := chains;
      trace := [];
      adopted := None;
    }

    /** A chained call `name(...args)`. The call is recorded, without a
        trailing callback, on the execution chain; the first assertion chain
        whose prefix matches decides the adopted outcome; a callback-capable
        function given a callback calls it with that outcome, every other call
        returns the query. With no match the call throws. */
    method Call(name: string, args: seq<Value>) returns (r: Result<Continuation>)
      requires name in registry
      modifies this
      ensures trace == old(trace) + [CallRecord(name, WithoutCallback(args))]
      ensures FirstMatch(assertionChains, trace).None? ==>
        r == Throws(IncorrectChain(trace)) && adopted == old(adopted)
      ensures FirstMatch(assertionChains, trace).Some? ==>
        var winner := assertionChains[FirstMatch(assertionChains, trace).value];
        adopted == winner.outcome &&
        if registry[name] && Callback(args).Some? then
          r == match winner.outcome
               case None => Throws(NullReturns)
               case Some(o) => Ok(ReturnCallbackResult(Callback(args).value, o.err, o.data))
        else
          r == Ok(ReturnThis)
    {
      var record := CallRecord(name, WithoutCallback(args));
      trace := trace + [record];

      var i := 0;
      while i < |assertionChains|
        invariant 0 <= i <= |assertionChains|
        invariant trace == old(trace) + [record] && adopted == old(adopted)
        invariant forall j :: 0 <= j < i ==> !PrefixMatches(assertionChains[j].chain, trace)
      {
        var assertionChain := assertionChains[i];
        if trace == Slice(assertionChain.chain, |trace|) {
          adopted := assertionChain.outcome;
          var callback := Callback(args);
          if registry[name] && callback.Some? {
            match assertionChain.outcome
            case None =>
              r := Throws(NullReturns);
            case Some(o) =>
              r := Ok(ReturnCallbackResult(callback.value, o.err, o.data));
          } else {
            r := Ok(ReturnThis);
          }
          return;
        }
        i := i + 1;
      }
      r := Throws(IncorrectChain(trace));
    }

    /** `exec(...args)`: takes the adopted outcome, resets the execution
        chain, then delivers the outcome by the callback or promise rule. A
        null adopted outcome throws once the reset is done. */
    method Exec(args: seq<Value>) returns (r: Result<Delivery>)
      modifies this
      ensures trace == [] && adopted == None
      ensures old(adopted).None? ==> r == Throws(NullReturns)
      ensures old(adopted).Some? ==>
        r == Ok(Deliver(Callback(args), old(adopted).value.err, old(adopted).value.data))
    {
      var executing := adopted;
      trace := [];
      adopted := None;
      match executing
      case None =>
        r := Throws(NullReturns);
      case Some(o) =>
        r := Ok(Deliver(Callback(args), o.err, o.data));
    }

    /** `exec()` followed by `then(onFulfilled, onRejected)`. */
    method Then(onFulfilled: Value, onRejected: Value) returns (r: Result<Settled>)
      modifies this
      ensures trace == [] && adopted == None
      ensures old(adopted).None? ==> r == Throws(NullReturns)
      ensures old(adopted).Some? ==>
        r == Ok(Settle(Deliver(None, old(adopted).value.err, old(adopted).value.data), onFulfilled, onRejected))
    {
      var p := Exec([]);
      match p
      case Throws(e) => r := Throws(e);
      case Ok(d) => r := Ok(Settle(d, onFulfilled, onRejected));
    }

    /** `exec()` followed by `then(null, onRejected)`. */
    method Catch(onRejected: Value) returns (r: Result<Settled>)
      modifies this
      ensures trace == [] && adopted == None
      ensures old(adopted).None? ==> r == Throws(NullReturns)
      ensures old(adopted).Some? ==>
        r == Ok(Settle(Deliver(None, old(adopted).value.err, old(adopted).value.data), Null, onRejected))
    {
      var p := Exec([]);
      match p
      case Throws(e) => r := Throws(e);
      case Ok(d) => r := Ok(Settle(d, Null, onRejected));
    }
  }
}
