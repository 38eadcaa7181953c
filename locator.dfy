/**
 * Position-feedback capability of the robot (supports_locator) and the
 * ordered fallback for zeroing its position origin (try_reset_locator).
 */
module Locator {
  import opened RobotApi

  /** What a call on the robot did: returned, or raised AttributeError or another exception. */
  datatype CallOutcome = Returned | AttributeError | OtherError

  /** What the robot does when each reset operation is called. */
  datatype ResetResponses = ResetResponses(
    resetLocator: CallOutcome, setLocation: CallOutcome, setLocator: CallOutcome, setPosition: CallOutcome)
  {
    function Of(op: ResetOp): CallOutcome
    {
      match op
      case ResetLocator => resetLocator
      case SetLocation => setLocation
      case SetLocator => setLocator
      case SetPosition => setPosition
    }
  }

  /** How `get_location` looks on the robot object. */
  datatype Attribute = Missing | NotCallable | Callable

  /** True, False, or an exception escaping try_reset_locator. */
  datatype ResetResult = ResetDone | ResetFailed | ResetRaised

  /** The result, and the reset operations that were called, in order. */
  datatype ResetRun = ResetRun(result: ResetResult, attempted: seq<ResetOp>)

  /** The alternatives tried, each with (0, 0), when reset_locator is missing. */
  const FALLBACKS: seq<ResetOp> := [SetLocation, SetLocator, SetPosition]

  /** The full order of attempts. */
  const RESET_ORDER: seq<ResetOp> := [ResetLocator] + FALLBACKS

  /** `get_location` exists and can be called. */
  predicate SupportsLocator(getLocation: Attribute)
  {
    getLocation == Callable
  }

  /** The calls issued for a list of reset attempts. */
  function CallLog(ops: seq<ResetOp>): (cmds: seq<Cmd>)
    ensures |cmds| == |ops|
    ensures forall j :: 0 <= j < |ops| ==> cmds[j] == Reset(ops[j])
  {
    if ops == [] then [] else CallLog(ops[..|ops| - 1]) + [Reset(ops[|ops| - 1])]
  }

  /** Index of the first operation in ops whose call returns, or |ops| if none does. */
  function FirstReturned(ops: seq<ResetOp>, resp: ResetResponses): (k: nat)
    ensures k <= |ops|
    ensures forall j :: 0 <= j < k ==> resp.Of(ops[j]) != Returned
    ensures k < |ops| ==> resp.Of(ops[k]) == Returned
  {
    if ops == [] then 0
    else if resp.Of(ops[0]) == Returned then 0
    else 1 + FirstReturned(ops[1..], resp)
  }

  /**
   * The loop over a list of fallbacks: each is called in turn, any exception
   * moves on to the next, the first call that returns ends it, and running
   * out of fallbacks fails.
   */
  function TryEach(resp: ResetResponses, ops: seq<ResetOp>): (run: ResetRun)
    ensures run.result != ResetRaised
    decreases |ops|
  {
    if ops == [] then ResetRun(ResetFailed, [])
    else if resp.Of(ops[0]) == Returned then ResetRun(ResetDone, [ops[0]])
    else
      var rest := TryEach(resp, ops[1..]);
      ResetRun(rest.result, [ops[0]] + rest.attempted)
  }

  /**
   * What try_reset_locator does given the robot's response to each reset
   * operation: reset_locator first, where only AttributeError moves on to the
   * fallbacks and any other exception escapes.
   */
  function ResetSpec(resp: ResetResponses): ResetRun
  {
    match resp.Of(ResetLocator)
    case Returned => ResetRun(ResetDone, [ResetLocator])
    case OtherError => ResetRun(ResetRaised, [ResetLocator])
    case AttributeError =>
      var rest := TryEach(resp, FALLBACKS);
      ResetRun(rest.result, [ResetLocator] + rest.attempted)
  }

  /** Logging one operation and then a list of others logs the whole list. */
  lemma CallLogPrepend(before: seq<Cmd>, op: ResetOp, rest: seq<ResetOp>)
    ensures before + CallLog([op] + rest) == before + [Reset(op)] + CallLog(rest)
  {
    assert CallLog([op] + rest) == [Reset(op)] + CallLog(rest);
  }

  /**
   * The fallback loop stops at the first fallback that returns: it calls the
   * fallbacks up to and including that one and succeeds, or calls all of them
   * and fails when none returns.
   */
  lemma {:induction false} TryEachStopsAtFirstReturned(resp: ResetResponses, ops: seq<ResetOp>)
    ensures var k := FirstReturned(ops, resp);
      TryEach(resp, ops) ==
        if k < |ops| then ResetRun(ResetDone, ops[..k + 1]) else ResetRun(ResetFailed, ops)
    decreases |ops|
  {
    if ops != [] && resp.Of(ops[0]) != Returned {
      var rest := ops[1..];
      TryEachStopsAtFirstReturned(resp, rest);
      var k := FirstReturned(rest, resp);
      if k < |rest| {
        assert [ops[0]] + rest[..k + 1] == ops[..k + 2];
      } else {
        assert [ops[0]] + rest == ops;
      }
    }
  }

  /** The attempts of try_reset_locator, read off the first fallback that returns. */
  lemma ResetAttempts(resp: ResetResponses)
    ensures var run := ResetSpec(resp);
      && (resp.Of(ResetLocator) != AttributeError ==> run.attempted == RESET_ORDER[..1])
      && (resp.Of(ResetLocator) == AttributeError ==>
            var k := FirstReturned(FALLBACKS, resp);
            run == if k < |FALLBACKS| then ResetRun(ResetDone, RESET_ORDER[..k + 2])
                   else ResetRun(ResetFailed, RESET_ORDER))
  {
    TryEachStopsAtFirstReturned(resp, FALLBACKS);
    var k := FirstReturned(FALLBACKS, resp);
    if k < |FALLBACKS| {
      assert [ResetLocator] + FALLBACKS[..k + 1] == RESET_ORDER[..k + 2];
    }
  }

  /**
   * The attempts are a non-empty prefix of RESET_ORDER; every attempt but the
   * last failed, and the last one returned exactly when the reset succeeded.
   */
  lemma ResetTriesInOrder(resp: ResetResponses)
    ensures var run := ResetSpec(resp);
      && 1 <= |run.attempted| <= |RESET_ORDER|
      && run.attempted == RESET_ORDER[..|run.attempted|]
      && (forall j :: 0 <= j < |run.attempted| - 1 ==> resp.Of(run.attempted[j]) != Returned)
      && (run.result == ResetDone <==> resp.Of(run.attempted[|run.attempted| - 1]) == Returned)
  {
    var run := ResetSpec(resp);
    ResetAttempts(resp);
    if resp.Of(ResetLocator) == AttributeError {
      var k := FirstReturned(FALLBACKS, resp);
      if k < |FALLBACKS| {
        assert run.attempted == RESET_ORDER[..k + 2];
      } else {
        assert run.attempted == RESET_ORDER;
      }
    }
  }

  /**
   * The reset succeeds exactly when reset_locator returns, or it is missing
   * and one of the fallbacks returns; it fails exactly when reset_locator is
   * missing and every fallback raises; it raises exactly when reset_locator
   * raises anything other than AttributeError.
   */
  lemma ResetOutcomes(resp: ResetResponses)
    ensures ResetSpec(resp).result == ResetDone <==>
      resp.Of(ResetLocator) == Returned ||
      (resp.Of(ResetLocator) == AttributeError && exists j :: 0 <= j < |FALLBACKS| && resp.Of(FALLBACKS[j]) == Returned)
    ensures ResetSpec(resp).result == ResetFailed <==>
      resp.Of(ResetLocator) == AttributeError && forall j :: 0 <= j < |FALLBACKS| ==> resp.Of(FALLBACKS[j]) != Returned
    ensures ResetSpec(resp).result == ResetRaised <==> resp.Of(ResetLocator) == OtherError
  {
    ResetAttempts(resp);
    var k := FirstReturned(FALLBACKS, resp);
    if resp.Of(ResetLocator) == AttributeError && k < |FALLBACKS| {
      assert resp.Of(FALLBACKS[k]) == Returned;
    }
  }
}
