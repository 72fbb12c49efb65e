/** The data of the query mock and the pure specification of its matcher:
    call records, assertion chains, the prefix match against the execution
    chain, the first-match rule, and the builder steps that declare chains. */
module MockChains {
  import opened JsValues

  /** One link of a chain: `{name, args}`. */
  datatype CallRecord = CallRecord(name: string, args: seq<Value>)

  /** The declared `{err, data}` a chain returns. */
  datatype Outcome = Outcome(err: Value, data: Value)

  /** `{chain, returns}`: the expected calls and, once closed, their outcome
      (`returns: null` while the chain is still open). */
  datatype AssertionChain = AssertionChain(chain: seq<CallRecord>, outcome: Option<Outcome>)

  /** The `{ chain: [], returns: null }` every fresh chain starts as. */
  const OpenChain := AssertionChain([], None)

  /** `s.slice(0, n)`: the first `n` elements, or all of `s` when it is shorter. */
  function Slice<T>(s: seq<T>, n: nat): (r: seq<T>)
    ensures |r| == if n <= |s| then n else |s|
    ensures r == s[..|r|]
  {
    if n <= |s| then s[..n] else s
  }

  /** `deepEqual(trace, assertion.slice(0, trace.length))`: holds exactly when
      the trace is a prefix of the assertion chain; a trace longer than the
      chain never matches. */
  function PrefixMatches(assertion: seq<CallRecord>, trace: seq<CallRecord>): (b: bool)
    ensures b <==> |trace| <= |assertion| && assertion[..|trace|] == trace
  {
    trace == Slice(assertion, |trace|)
  }

  /** The index of the first assertion chain, in declaration order, whose
      prefix matches the trace; None when no chain does. */
  function FirstMatch(chains: seq<AssertionChain>, trace: seq<CallRecord>): (r: Option<nat>)
    ensures r.Some? ==> r.value < |chains| && PrefixMatches(chains[r.value].chain, trace)
    ensures r.Some? ==> forall j :: 0 <= j < r.value ==> !PrefixMatches(chains[j].chain, trace)
    ensures r.None? ==> forall j :: 0 <= j < |chains| ==> !PrefixMatches(chains[j].chain, trace)
  {
    if chains == [] then None
    else if PrefixMatches(chains[0].chain, trace) then Some(0)
    else match FirstMatch(chains[1..], trace)
      case None => None
      case Some(k) => Some(k + 1)
  }

  /** A chain matched by the lowest index wins; every later match is ignored. */
  lemma EarliestMatchWins(chains: seq<AssertionChain>, trace: seq<CallRecord>, k: nat)
    requires k < |chains| && PrefixMatches(chains[k].chain, trace)
    requires forall j :: 0 <= j < k ==> !PrefixMatches(chains[j].chain, trace)
    ensures FirstMatch(chains, trace) == Some(k)
  {
  }

  /** A trace that matches a chain also matched it one call earlier. */
  lemma MatchIsPrefixClosed(assertion: seq<CallRecord>, trace: seq<CallRecord>, next: CallRecord)
    requires PrefixMatches(assertion, trace + [next])
    ensures PrefixMatches(assertion, trace)
  {
  }

  /** A mismatch is reported at the first diverging call: once no chain
      matches, no extension of the trace matches either. */
  lemma MismatchIsFinal(chains: seq<AssertionChain>, trace: seq<CallRecord>, next: CallRecord)
    requires FirstMatch(chains, trace).None?
    ensures FirstMatch(chains, trace + [next]).None?
  {
  }

  /** Following a declared chain one call further never raises a mismatch:
      the winner is that chain or an earlier one. */
  lemma FollowingDeclaredChainMatches(chains: seq<AssertionChain>, trace: seq<CallRecord>, k: nat)
    requires k < |chains| && |trace| < |chains[k].chain|
    requires PrefixMatches(chains[k].chain, trace)
    ensures var m := FirstMatch(chains, trace + [chains[k].chain[|trace|]]);
      m.Some? && m.value <= k
  {
  }

  /** A trace longer than every assertion chain always raises a mismatch. */
  lemma TraceLongerThanEveryChainMismatches(chains: seq<AssertionChain>, trace: seq<CallRecord>)
    requires forall j :: 0 <= j < |chains| ==> |chains[j].chain| < |trace|
    ensures FirstMatch(chains, trace).None?
  {
  }

  // ---------------------------------------------------------------------------
  // The builder

  /** The shape the builder keeps: at least one chain, the last one open, and
      every earlier one closed by `returns`. */
  predicate WellFormed(chains: seq<AssertionChain>) {
    |chains| > 0 &&
    chains[|chains| - 1].outcome.None? &&
    forall i :: 0 <= i < |chains| - 1 ==> chains[i].outcome.Some?
  }

  /** `returns(err, data)`: the last chain gets the outcome, one fresh open
      chain is appended, and every earlier chain is left as it was. */
  function CloseLast(chains: seq<AssertionChain>, outcome: Outcome): (r: seq<AssertionChain>)
    requires |chains| > 0
    ensures |r| == |chains| + 1
    ensures r[..|chains| - 1] == chains[..|chains| - 1]
    ensures r[|chains| - 1] == AssertionChain(chains[|chains| - 1].chain, Some(outcome))
    ensures r[|chains|] == OpenChain
    ensures WellFormed(chains) ==> WellFormed(r)
  {
    chains[..|chains| - 1] + [chains[|chains| - 1].(outcome := Some(outcome)), OpenChain]
  }

  /** `proto[name].withArgs(...)`: one record is appended to the last chain
      only; the number of chains and every other chain stay as they were. */
  function AppendToLast(chains: seq<AssertionChain>, record: CallRecord): (r: seq<AssertionChain>)
    requires |chains| > 0
    ensures |r| == |chains|
    ensures r[..|chains| - 1] == chains[..|chains| - 1]
    ensures r[|chains| - 1].chain == chains[|chains| - 1].chain + [record]
    ensures r[|chains| - 1].outcome == chains[|chains| - 1].outcome
    ensures WellFormed(chains) ==> WellFormed(r)
  {
    var last := chains[|chains| - 1];
    chains[..|chains| - 1] + [last.(chain := last.chain + [record])]
  }

  /** One call on the builder. */
  datatype Declaration = DeclareCall(record: CallRecord) | DeclareReturns(outcome: Outcome)

  function Declare(chains: seq<AssertionChain>, d: Declaration): seq<AssertionChain>
    requires |chains| > 0
  {
    match d
    case DeclareCall(record) => AppendToLast(chains, record)
    case DeclareReturns(outcome) => CloseLast(chains, outcome)
  }

  /** A script of builder calls, applied in order. */
  function DeclareAll(chains: seq<AssertionChain>, script: seq<Declaration>): (r: seq<AssertionChain>)
    requires |chains| > 0
    ensures |r| > 0
    ensures WellFormed(chains) ==> WellFormed(r)
    decreases |script|
  {
    if script == [] then chains else DeclareAll(Declare(chains, script[0]), script[1..])
  }

  /** What a tester means by one alternative: these calls, then this outcome. */
  datatype Expectation = Expectation(calls: seq<CallRecord>, outcome: Outcome)

  /** The builder calls that declare one expectation: `withArgs` per call,
      then `returns`. */
  function CallSteps(calls: seq<CallRecord>): (s: seq<Declaration>)
    ensures |s| == |calls|
    ensures forall i :: 0 <= i < |calls| ==> s[i] == DeclareCall(calls[i])
  {
    if calls == [] then [] else [DeclareCall(calls[0])] + CallSteps(calls[1..])
  }

  function Script(expectations: seq<Expectation>): seq<Declaration> {
    if expectations == [] then []
    else
      var e := expectations[|expectations| - 1];
      Script(expectations[..|expectations| - 1]) + CallSteps(e.calls) + [DeclareReturns(e.outcome)]
  }

  /** The closed chains the expectations stand for, in declaration order. */
  function Closed(expectations: seq<Expectation>): (r: seq<AssertionChain>)
    ensures |r| == |expectations|
    ensures forall i :: 0 <= i < |r| ==> r[i] == AssertionChain(expectations[i].calls, Some(expectations[i].outcome))
  {
    if expectations == [] then []
    else
      var e := expectations[|expectations| - 1];
      Closed(expectations[..|expectations| - 1]) + [AssertionChain(e.calls, Some(e.outcome))]
  }

  lemma {:induction false} DeclareAllAppend(chains: seq<AssertionChain>, s1: seq<Declaration>, s2: seq<Declaration>)
    requires |chains| > 0
    ensures DeclareAll(chains, s1 + s2) == DeclareAll(DeclareAll(chains, s1), s2)
    decreases |s1|
  {
    if s1 == [] {
      assert s1 + s2 == s2;
    } else {
      assert (s1 + s2)[0] == s1[0];
      assert (s1 + s2)[1..] == s1[1..] + s2;
      DeclareAllAppend(Declare(chains, s1[0]), s1[1..], s2);
    }
  }

  lemma AppendToOpenLast(prefix: seq<AssertionChain>, begun: seq<CallRecord>, record: CallRecord)
    ensures AppendToLast(prefix + [AssertionChain(begun, None)], record)
         == prefix + [AssertionChain(begun + [record], None)]
  {
  }

  lemma {:induction false} CallStepsExtendLast(prefix: seq<AssertionChain>, begun: seq<CallRecord>, calls: seq<CallRecord>)
    ensures DeclareAll(prefix + [AssertionChain(begun, None)], CallSteps(calls))
         == prefix + [AssertionChain(begun + calls, None)]
    decreases |calls|
  {
    if calls == [] {
      assert begun + calls == begun;
    } else {
      var chains := prefix + [AssertionChain(begun, None)];
      var steps := CallSteps(calls);
      assert steps[0] == DeclareCall(calls[0]);
      assert steps[1..] == CallSteps(calls[1..]);
      AppendToOpenLast(prefix, begun, calls[0]);
      assert DeclareAll(chains, steps)
          == DeclareAll(prefix + [AssertionChain(begun + [calls[0]], None)], CallSteps(calls[1..]));
      CallStepsExtendLast(prefix, begun + [calls[0]], calls[1..]);
      assert begun + [calls[0]] + calls[1..] == begun + calls;
    }
  }

  lemma CloseOpenLast(prefix: seq<AssertionChain>, calls: seq<CallRecord>, outcome: Outcome)
    ensures DeclareAll(prefix + [AssertionChain(calls, None)], [DeclareReturns(outcome)])
         == prefix + [AssertionChain(calls, Some(outcome)), OpenChain]
  {
  }

  /** Declaring expectations through the builder yields exactly their closed
      chains, in declaration order, followed by one open empty chain. */
  lemma {:induction false} BuilderDeclaresInOrder(expectations: seq<Expectation>)
    ensures DeclareAll([OpenChain], Script(expectations)) == Closed(expectations) + [OpenChain]
    decreases |expectations|
  {
    if expectations != [] {
      var init := expectations[..|expectations| - 1];
      var e := expectations[|expectations| - 1];
      var calls, close := CallSteps(e.calls), [DeclareReturns(e.outcome)];
      assert Script(expectations) == Script(init) + calls + close;
      BuilderDeclaresInOrder(init);
      DeclareAllAppend([OpenChain], Script(init) + calls, close);
      DeclareAllAppend([OpenChain], Script(init), calls);
      CallStepsExtendLast(Closed(init), [], e.calls);
      assert [] + e.calls == e.calls;
      CloseOpenLast(Closed(init), e.calls, e.outcome);
      assert Closed(expectations) == Closed(init) + [AssertionChain(e.calls, Some(e.outcome))];
    }
  }

  /** End to end: among declared expectations, the first whose calls the trace
      is a prefix of governs the trace, and it carries that expectation's
      outcome verbatim. */
  lemma DeclaredExpectationGoverns(expectations: seq<Expectation>, trace: seq<CallRecord>, k: nat)
    requires k < |expectations| && PrefixMatches(expectations[k].calls, trace)
    requires forall j :: 0 <= j < k ==> !PrefixMatches(expectations[j].calls, trace)
    ensures var chains := DeclareAll([OpenChain], Script(expectations));
      FirstMatch(chains, trace) == Some(k) && chains[k].outcome == Some(expectations[k].outcome)
  {
    BuilderDeclaresInOrder(expectations);
    var chains := Closed(expectations) + [OpenChain];
    EarliestMatchWins(chains, trace, k);
  }

  /** The null `returns` of an open chain is only ever adopted from the last
      chain, and only when it has had calls declared but was never closed. */
  lemma OnlyUnclosedChainLacksOutcome(chains: seq<AssertionChain>, trace: seq<CallRecord>)
    requires WellFormed(chains) && trace != []
    requires FirstMatch(chains, trace).Some?
    requires chains[FirstMatch(chains, trace).value].outcome.None?
    ensures FirstMatch(chains, trace).value == |chains| - 1
    ensures chains[|chains| - 1].chain != []
  {
  }

  /** Chains declared only through complete expectations never leave a null
      outcome to adopt for a non-empty trace. */
  lemma DeclaredChainsAlwaysCarryOutcome(expectations: seq<Expectation>, trace: seq<CallRecord>)
    requires trace != []
    requires FirstMatch(DeclareAll([OpenChain], Script(expectations)), trace).Some?
    ensures var chains := DeclareAll([OpenChain], Script(expectations));
      chains[FirstMatch(chains, trace).value].outcome.Some?
  {
    BuilderDeclaresInOrder(expectations);
  }
}
