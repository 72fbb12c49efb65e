# mongoose-model-mock: the query doubles, in Dafny

This project models the two query test doubles of a library that mimics the
chainable query API of the Mongoose ORM, and proves properties of them.

- **The query mock** (`lib/query-mock/index.js`) records and replays chains of
  calls. Calling the module's export builds a fresh `Query` class. Its static
  `Query.proto` lets a test declare *assertion chains*. `proto[name].withArgs(...)`
  appends a call record `{name, args}` to the open chain, and
  `proto.returns(err, data)` closes that chain with an outcome and opens a new
  one. The first `new Query()` captures the chains and deletes `proto`. On the
  instance, every chained call is appended, without a trailing callback, to the
  *execution chain* (the trace). The call then adopts the outcome of the first
  assertion chain whose length-|trace| prefix equals the trace. After that it
  either calls a trailing callback (callback-capable functions only) or returns
  the query. If no chain matches, it throws. `exec` resets the trace and
  delivers the adopted outcome to a callback or as a rejected or resolved
  promise. `then` and `catch` are `exec()` followed by the promise handlers.
- **The query stub** (`lib/query/query-stub.js`) stores one `(err, data)` pair,
  set by `returns`. `exec`, `then` and `catch` deliver that pair by the
  callback-or-promise rule. A callback-capable chainable function given a
  trailing function calls it with the pair. Every other chained call returns
  the query, including a callback-capable one without a trailing function.

Modules:

- `JsValues` (`js_values.dfy`): JavaScript values. Structural equality stands
  in for `deep-equal`.
- `CallbackUtil` (`callback_util.dfy`): the trailing-callback convention.
- `Outcomes` (`outcomes.dfy`): the delivery rule, promise `then` routing, and
  what a chained call returns.
- `QueryStub` (`query_stub.dfy`): the stub class.
- `MockChains` (`mock_chains.dfy`): the mock's records and chains, the prefix
  match, the first-match rule, and the builder's steps, with their lemmas.
- `QueryMock` (`query_mock.dfy`): the `Query` class value with its `proto`
  (`QueryClass`) and the live instance (`Query`).
- `MockScenarios` (`mock_scenarios.dfy`): clients that illustrate typical
  uses of the mock, using only the classes' contracts.

Thrown errors are values of the `Thrown` datatype:
- `IncorrectChain(trace)` is "invoked query with incorrect chain".
- `NullReturns` is the TypeError of reading `err` from a `returns` that is still null.

Using the builder or constructing a second instance after `proto` is gone is
also a TypeError in the code. For the builder it is modelled as `ok == false`;
for a second construction, as a `null` instance.

A trace that is a proper prefix of a declared chain matches that chain
(`lib/query-mock/index.js:67-71`), and `exec` delivers the adopted outcome
without checking that the whole chain was called. So after declaring
`find({id: 1}).sort('name')`, calling only `find({id: 1})` and resolving
fulfils with the declared data; no mismatch is raised.
`MockScenarios.ScenarioShorterTrace` illustrates this.

Only `exec` (and so `then` and `catch`) resets the trace
(`lib/query-mock/index.js:30`). A callback-capable call that ends a chain by
calling its callback leaves the trace in place
(`lib/query-mock/index.js:63`, `:77`). The next chain on the same instance is
therefore matched after the stale calls and can throw.

## Model

| member | source | states |
|---|---|---|
| CallbackUtil.Callback | lib/query/query-stub.js:25-27 | a call has a callback exactly when its last argument is a function, and that function is the callback; with no arguments there is none |
| CallbackUtil.WithoutCallback | lib/query-mock/index.js:62 | the recorded arguments are the call's arguments with a trailing function removed; putting the callback back gives the original list, and nothing is removed otherwise |
| Outcomes.Deliver | lib/query-mock/index.js:32-42 | a callback gets `(err, data)` verbatim; with no callback the promise rejects with `err` exactly when `err` is neither null nor undefined, and resolves with `data` otherwise |
| Outcomes.PromiseThenRouting | lib/query-mock/index.js:19-25 | on the promise path a non-null `err` reaches only the rejection handler and otherwise `data` reaches only the fulfilment handler; a missing handler lets the state pass through |
| QueryStub.Query.constructor | lib/query/query-stub.js:9 | a new stub holds undefined `err` and `data` |
| QueryStub.Query.Returns | lib/query/query-stub.js:11-14 | both stored fields are overwritten with the given values and nothing else changes |
| QueryStub.Query.Exec | lib/query/query-stub.js:24-37 | a trailing function is called with the stored pair; otherwise the promise rejects with `err` when it is not null and resolves with `data` when it is; it follows the shared delivery rule |
| QueryStub.Query.Then | lib/query/query-stub.js:16-18 | `exec()` with no arguments, so always the promise path, then the given handlers |
| QueryStub.Query.Catch | lib/query/query-stub.js:20-22 | a success passes through untouched; a non-null `err` reaches the rejection handler, or passes through as a rejection when none is given |
| QueryStub.Query.Chain | lib/query/query-stub.js:41-53 | a callback-capable function given a trailing function returns that function's result on the stored pair; every other call returns the query, even with a trailing function; no chainable call may modify `err` or `data` |
| MockChains.Slice | lib/query-mock/index.js:67 | `slice(0, n)` keeps `min(n, length)` leading elements |
| MockChains.PrefixMatches | lib/query-mock/index.js:67-69 | the comparison holds exactly when the trace is a prefix of the assertion chain; a trace longer than the chain never matches |
| MockChains.FirstMatch | lib/query-mock/index.js:65-71 | the chosen chain matches and no earlier chain does; no choice means no chain matches |
| MockChains.EarliestMatchWins | lib/query-mock/index.js:65-71 | the lowest-index matching chain governs; later matching chains are ignored |
| MockChains.MatchIsPrefixClosed | lib/query-mock/index.js:67-69 | a trace that matches a chain also matched it one call earlier |
| MockChains.MismatchIsFinal | lib/query-mock/index.js:63-86 | once no chain matches, no extension of the trace matches: the mismatch is raised at the first diverging call and every later call throws as well |
| MockChains.FollowingDeclaredChainMatches | lib/query-mock/index.js:63-71 | extending a matching trace with the next call of a matching chain never throws, and the winner is that chain or an earlier one |
| MockChains.TraceLongerThanEveryChainMismatches | lib/query-mock/index.js:65-86 | a trace longer than every assertion chain always throws |
| MockChains.CloseLast | lib/query-mock/index.js:49-53 | `returns` sets the outcome of the last chain only, appends one fresh open chain (the count grows by exactly one), leaves every earlier chain unchanged, and keeps the builder's shape |
| MockChains.AppendToLast | lib/query-mock/index.js:90-94 | `withArgs` appends exactly one record to the last chain only; the chain count, that chain's outcome and every other chain are unchanged, and the builder's shape is kept |
| MockChains.DeclareAll | lib/query-mock/index.js:47-95 | any sequence of builder calls keeps at least one chain and keeps the builder's shape: the last chain open and every earlier one closed |
| MockChains.BuilderDeclaresInOrder | lib/query-mock/index.js:47-95 | declaring alternatives with `withArgs` calls and `returns` yields exactly their closed chains in declaration order, followed by one open empty chain |
| MockChains.DeclaredExpectationGoverns | lib/query-mock/index.js:65-71 | among declared alternatives, the first whose calls the trace is a prefix of governs it and carries its declared outcome verbatim |
| MockChains.OnlyUnclosedChainLacksOutcome | lib/query-mock/index.js:48-77 | a null outcome can only be adopted from the last chain, and only when calls were declared on it without a closing `returns` |
| MockChains.DeclaredChainsAlwaysCarryOutcome | lib/query-mock/index.js:71-77 | when every alternative is closed by `returns`, a matching call never adopts a null outcome |
| QueryMock.QueryClass.constructor | lib/query-mock/index.js:47-57 | `proto` starts with a single open, empty chain |
| QueryMock.QueryClass.Returns | lib/query-mock/index.js:49-53 | the chains become `CloseLast` of the old chains; once `proto` is deleted the call fails and changes nothing |
| QueryMock.QueryClass.WithArgs | lib/query-mock/index.js:89-95 | the chains become `AppendToLast` of the old chains with `{name, args}`; once `proto` is deleted the call fails and changes nothing |
| QueryMock.QueryClass.New | lib/query-mock/index.js:10-17 | the first construction gives a fresh instance holding exactly the declared chains and deletes `proto`; any later construction fails |
| QueryMock.Query.constructor | lib/query-mock/index.js:12-13 | a new instance has an empty execution chain with a null `returns` and the given assertion chains |
| QueryMock.Query.Call | lib/query-mock/index.js:61-87 | exactly one record `{name, args without callback}` is appended to the trace; the adopted outcome is that of the first matching chain; a callback-capable function given a callback returns the callback's result on that outcome, and every other call returns the query; with no match it throws the trace and the adopted outcome is unchanged |
| QueryMock.Query.Exec | lib/query-mock/index.js:27-43 | the trace and adopted outcome are reset before delivery, so the next chain is matched afresh; the adopted outcome is delivered by the shared rule; a null adopted outcome throws |
| QueryMock.Query.Then | lib/query-mock/index.js:19-21 | exactly `exec()` followed by the handlers, including the reset |
| QueryMock.Query.Catch | lib/query-mock/index.js:23-25 | exactly `exec()` followed by `then(null, onRejected)`, including the reset |

## Left out

- `deep-equal` is modelled as structural equality on `Value`. Its loose mode, in which `1` equals `'1'`, is not modelled.
- JavaScript numbers are modelled as integers.
- Promise scheduling and microtasks are not modelled. For a non-thenable `data`, a delivery is the state the promise settles in.
- Outcomes.Deliver, Outcomes.Settle: the resolve path (`Promise.resolve(data)` at `lib/query-mock/index.js:41` and `lib/query/query-stub.js:35`) assumes `data` is not a thenable, meaning an object with a callable `then`. JavaScript makes such a promise adopt the thenable's state. After `returns(null, {then: (res) => res(42)})`, `.then(f)` calls `f(42)`, whereas the model gives `Resolved(data)` and `HandlerCalled(f, data)`. The reject path is exact, since `Promise.reject` never adopts its argument.
- What a callback or promise handler returns is not modelled. `ReturnCallbackResult` and `HandlerCalled` stand for the call.
- `lib/util/callback-util` is not part of this model. Its callback is taken to be the last argument when that argument is a function, and it strips that argument.
- The chainable function tables are not part of this model. They are a parameter: a map from name to "callback-capable".
- The loops that install one handler per table entry on the prototypes (`lib/query-mock/index.js:60-96`, `lib/query/query-stub.js:41-53`) are not modelled. A call takes the function name instead. Calling a name not in the table is a missing method, excluded by `requires name in registry`.
- `Query.proto.proto = Query.proto` only makes `proto` reachable from itself; the builder methods act on the one `QueryClass` object.
- The text of the mismatch error (`JSON.stringify` of the trace) is not modelled. `IncorrectChain` carries the trace itself.
- MockChains.CallRecord, MockChains.Outcome, QueryStub.Query: the source holds arguments, argument matchers and the declared `err`/`data` by reference (`lib/query-mock/index.js:51`, `:62-63`, `:71`, `:92`, `lib/query/query-stub.js:12-13`); the model holds immutable snapshots. So it does not capture two effects of later mutation. A filter the caller changes after `find(filter)` is compared in its changed form on the next call, which can then throw where the model matches. A delivered document that the code under test mutates is delivered in its changed form by the next `exec` of that chain.
- The instance shares the `_chains` array with `proto`. A test that kept a reference to it could still mutate the chains after construction; the model treats captured chains as immutable.
- The example HTTP server and its error middleware (`examples/api`) are process and network glue.
