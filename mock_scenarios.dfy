/** Clients of the query mock that illustrate typical uses of it, using
    only the contracts of the classes. */
module MockScenarios {
  import opened JsValues
  import opened CallbackUtil
  import opened Outcomes
  import opened MockChains
  import opened QueryMock

  const Registry: map<string, bool> := map["find" := true, "findOne" := true, "sort" := false]

  /** `find({id: 1})` declared with `returns(null, {id: 1, name: 'x'})`;
      calling `find({id: 1})` and resolving through `then` fulfils with the
      declared document. */
  method ScenarioResolve(onFulfilled: Value, onRejected: Value)
    requires IsFunction(onFulfilled)
  {
    var filter := Obj(map["id" := Num(1)]);
    var doc := Obj(map["id" := Num(1), "name" := Str("x")]);
    var cls := new QueryClass(Registry);
    var ok := cls.WithArgs("find", [filter]);
    ok := cls.Returns(Null, doc);
    var q := cls.New();
    assert q != null;
    var c := q.Call("find", [filter]);
    assert PrefixMatches(q.assertionChains[0].chain, q.trace);
    assert c == Ok(ReturnThis);
    var s := q.Then(onFulfilled, onRejected);
    assert s == Ok(HandlerCalled(onFulfilled, doc));
    assert q.trace == [];
  }

  /** A trace that is a proper prefix of a declared chain matches it, and
      `exec` does not check that the whole chain was called: with
      `find({id: 1}).sort('name')` declared, calling only `find({id: 1})`
      and resolving fulfils with the declared data. */
  method ScenarioShorterTrace() {
    var filter := Obj(map["id" := Num(1)]);
    var cls := new QueryClass(Registry);
    var ok := cls.WithArgs("find", [filter]);
    ok := cls.WithArgs("sort", [Str("name")]);
    ok := cls.Returns(Null, Arr([]));
    var q := cls.New();
    assert q != null;
    var c := q.Call("find", [filter]);
    assert PrefixMatches(q.assertionChains[0].chain, q.trace);
    assert c == Ok(ReturnThis);
    var d := q.Exec([]);
    assert d == Ok(Resolved(Arr([])));
  }

  /** Declares two `findOne` chains that differ only in their argument. */
  method DeclareTwoFindOnes(err: Value) returns (q: Query)
    ensures fresh(q) && q.registry == Registry && q.trace == [] && q.adopted == None
    ensures |q.assertionChains| == 3
    ensures q.assertionChains[0] == AssertionChain([CallRecord("findOne", [Num(1)])], Some(Outcome(Null, Str("first"))))
    ensures q.assertionChains[1] == AssertionChain([CallRecord("findOne", [Num(2)])], Some(Outcome(err, Str("second"))))
    ensures q.assertionChains[2] == OpenChain
  {
    var cls := new QueryClass(Registry);
    var ok := cls.WithArgs("findOne", [Num(1)]);
    ok := cls.Returns(Null, Str("first"));
    assert cls.chains[0] == AssertionChain([CallRecord("findOne", [Num(1)])], Some(Outcome(Null, Str("first"))));
    ok := cls.WithArgs("findOne", [Num(2)]);
    ok := cls.Returns(err, Str("second"));
    var made := cls.New();
    q := made;
  }

  /** A call with the second chain's argument skips the first chain and is
      governed by the second one's outcome. */
  method ScenarioSecondAlternative(err: Value) {
    var q := DeclareTwoFindOnes(err);
    var c := q.Call("findOne", [Num(2)]);
    assert q.trace == [CallRecord("findOne", [Num(2)])];
    assert q.assertionChains[0].chain[0].args[0] != q.trace[0].args[0];
    assert !PrefixMatches(q.assertionChains[0].chain, q.trace);
    assert PrefixMatches(q.assertionChains[1].chain, q.trace);
    assert q.adopted == Some(Outcome(err, Str("second")));
    var d := q.Exec([]);
    assert d == Ok(Deliver(None, err, Str("second")));
  }

  /** A call that diverges from every chain throws, and so does every call
      after it until `exec` resets the trace. */
  method ScenarioDivergence(err: Value) {
    var q := DeclareTwoFindOnes(err);
    var c := q.Call("findOne", [Num(3)]);
    assert q.trace == [CallRecord("findOne", [Num(3)])];
    assert q.assertionChains[0].chain[0].args[0] != q.trace[0].args[0];
    assert q.assertionChains[1].chain[0].args[0] != q.trace[0].args[0];
    assert c.Throws?;
    ghost var before := q.trace;
    c := q.Call("sort", []);
    MismatchIsFinal(q.assertionChains, before, CallRecord("sort", []));
    assert c.Throws?;
    var d := q.Exec([]);
    assert d == Throws(NullReturns);
  }

  /** A callback-capable call given a trailing callback delivers the declared
      pair to it at once, and returns no query; the trace is kept. */
  method ScenarioCallback(callback: Value)
    requires IsFunction(callback)
  {
    var cls := new QueryClass(Registry);
    var ok := cls.WithArgs("find", [Str("q")]);
    ok := cls.Returns(Str("boom"), Null);
    var q := cls.New();
    assert q != null;
    assert WithoutCallback([Str("q"), callback]) == [Str("q")];
    var c := q.Call("find", [Str("q"), callback]);
    assert q.trace == [CallRecord("find", [Str("q")])];
    assert PrefixMatches(q.assertionChains[0].chain, q.trace);
    assert c == Ok(ReturnCallbackResult(callback, Str("boom"), Null));

    var again := cls.New();
    assert again == null;
  }
}
