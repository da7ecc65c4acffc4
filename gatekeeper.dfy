/** The evaluation gatekeeper as an ordered list of checks: each error message
    stands for one condition under which a function evaluation must not start,
    and the first condition that holds, in the engine's order, is reported. */
module FuncEvalGate {
  import opened MonoTypes

  /** The four facts the gatekeeper consults, as seen at one instant. */
  datatype GateFlags = GateFlags(
    isPaused: bool,
    isUnhandledException: bool,
    evalTimedOut: bool,
    isEvaluating: bool)

  /** The condition each error message reports. */
  predicate Blocks(e: FuncEvalError, f: GateFlags) {
    match e
    case CanFuncEvalOnlyWhenPaused => !f.isPaused
    case CantFuncEvalWhenUnhandledExceptionHasOccurred => f.isUnhandledException
    case FuncEvalTimedOutNowDisabled => f.evalTimedOut
    case CantFuncEval => f.isEvaluating
  }

  /** The order in which the engine makes its checks. */
  const CheckOrder: seq<FuncEvalError> := [
    CanFuncEvalOnlyWhenPaused,
    CantFuncEvalWhenUnhandledExceptionHasOccurred,
    FuncEvalTimedOutNowDisabled,
    CantFuncEval
  ]

  /** Reference semantics of an ordered chain of checks: the first one that
      blocks wins, and no error means every check passed. */
  function FirstBlocking(order: seq<FuncEvalError>, f: GateFlags): Option<FuncEvalError> {
    if order == [] then None
    else if Blocks(order[0], f) then Some(order[0])
    else FirstBlocking(order[1..], f)
  }

  /** Evaluation is allowed exactly when none of the conditions holds. */
  predicate Allowed(f: GateFlags) {
    f.isPaused && !f.isUnhandledException && !f.evalTimedOut && !f.isEvaluating
  }

  /** The first-match chain reports an error that really holds, every check
      before it passed, and it reports nothing exactly when no check blocks. */
  lemma {:induction false} FirstBlockingIsFirstMatch(order: seq<FuncEvalError>, f: GateFlags)
    ensures FirstBlocking(order, f).None? <==> forall i :: 0 <= i < |order| ==> !Blocks(order[i], f)
    ensures FirstBlocking(order, f).Some? ==>
      exists k :: 0 <= k < |order| && order[k] == FirstBlocking(order, f).value && Blocks(order[k], f) &&
        forall i :: 0 <= i < k ==> !Blocks(order[i], f)
  {
    if order != [] && !Blocks(order[0], f) {
      FirstBlockingIsFirstMatch(order[1..], f);
      if FirstBlocking(order, f).Some? {
        var k :| 0 < k + 1 <= |order[1..]| && order[1..][k] == FirstBlocking(order, f).value &&
          Blocks(order[1..][k], f) && forall i :: 0 <= i < k ==> !Blocks(order[1..][i], f);
        assert order[k + 1] == order[1..][k];
        assert forall i :: 0 <= i < k + 1 ==> !Blocks(order[i], f) by {
          forall i | 0 < i < k + 1 ensures !Blocks(order[i], f) {
            assert order[i] == order[1..][i - 1];
          }
        }
      }
    }
  }

  /** Over the engine's order, no error is reported exactly when evaluation is allowed. */
  lemma NoErrorExactlyWhenAllowed(f: GateFlags)
    ensures FirstBlocking(CheckOrder, f) == None <==> Allowed(f)
  {
    CheckPriority(f);
    if Allowed(f) {
      FirstBlockingIsFirstMatch(CheckOrder, f);
      forall i | 0 <= i < |CheckOrder| ensures !Blocks(CheckOrder[i], f) {
        assert CheckOrder[i] in CheckOrder;
      }
    }
  }

  /** Priority of the checks: not being paused beats everything; then an
      unhandled exception beats the timeout marker and a running evaluation;
      then the timeout marker beats a running evaluation. */
  lemma CheckPriority(f: GateFlags)
    ensures !f.isPaused ==> FirstBlocking(CheckOrder, f) == Some(CanFuncEvalOnlyWhenPaused)
    ensures f.isPaused && f.isUnhandledException ==>
      FirstBlocking(CheckOrder, f) == Some(CantFuncEvalWhenUnhandledExceptionHasOccurred)
    ensures f.isPaused && !f.isUnhandledException && f.evalTimedOut ==>
      FirstBlocking(CheckOrder, f) == Some(FuncEvalTimedOutNowDisabled)
    ensures f.isPaused && !f.isUnhandledException && !f.evalTimedOut && f.isEvaluating ==>
      FirstBlocking(CheckOrder, f) == Some(CantFuncEval)
  {
    var rest1 := CheckOrder[1..];
    var rest2 := rest1[1..];
    var rest3 := rest2[1..];
    assert rest1 == [CantFuncEvalWhenUnhandledExceptionHasOccurred, FuncEvalTimedOutNowDisabled, CantFuncEval];
    assert rest2 == [FuncEvalTimedOutNowDisabled, CantFuncEval];
    assert rest3 == [CantFuncEval];
    assert rest3[1..] == [];
    if f.isPaused {
      assert FirstBlocking(CheckOrder, f) == FirstBlocking(rest1, f);
      if !f.isUnhandledException {
        assert FirstBlocking(rest1, f) == FirstBlocking(rest2, f);
        if !f.evalTimedOut {
          assert FirstBlocking(rest2, f) == FirstBlocking(rest3, f);
        }
      }
    }
  }
}
