/** The function-evaluation bookkeeping of the Mono debugger engine: the
    gatekeeper that decides whether an evaluation may start, the values created
    while paused that are closed when the debuggee continues, the per-continue
    "evaluation timed out" marker, and how the outcome of an invoke is reported. */
module MonoEngine {
  import opened MonoTypes
  import opened FuncEvalGate

  /** The kinds of data a continue context can carry; only `EvalTimedOut` is
      used by the evaluation code, the others stand for data attached by the
      rest of the engine. */
  datatype DataKind = EvalTimedOut | OtherData(name: string)

  /** State scoped to one pause of the debuggee: created when it pauses and
      dropped when it continues. */
  class DbgEngineContinueContext {
    var data: set<DataKind>

    constructor ()
      ensures data == {}
    {
      data := {};
    }

    predicate HasData(kind: DataKind)
      reads this
    {
      kind in data
    }

    /** Attaches data of the given kind unless some is attached already. */
    method GetOrCreateData(kind: DataKind)
      modifies this
      ensures data == old(data) + {kind}
    {
      if kind !in data {
        data := data + {kind};
      }
    }
  }

  /** The context an evaluation request runs in. */
  class DbgEvaluationContext {
    const continueContext: DbgEngineContinueContext

    constructor (continueContext: DbgEngineContinueContext)
      ensures this.continueContext == continueContext
    {
      this.continueContext := continueContext;
    }
  }

  /** The data of a continue context after one evaluation completed: the
      timeout marker is added when that evaluation timed out. */
  function AfterEvalComplete(data: set<DataKind>, evalTimedOut: bool): (r: set<DataKind>)
    ensures EvalTimedOut in r <==> EvalTimedOut in data || evalTimedOut
    ensures data <= r && r - data <= {EvalTimedOut}
  {
    if evalTimedOut then data + {EvalTimedOut} else data
  }

  /** Recording a completion twice has the effect of recording it once. */
  lemma AfterEvalCompleteIdempotent(data: set<DataKind>, evalTimedOut: bool)
    ensures AfterEvalComplete(AfterEvalComplete(data, evalTimedOut), evalTimedOut)
         == AfterEvalComplete(data, evalTimedOut)
  {
  }

  /** The data of a continue context after a series of evaluations completed
      during one pause, each given by whether it timed out. */
  function AfterEvalCompletions(data: set<DataKind>, timedOut: seq<bool>): set<DataKind>
    decreases |timedOut|
  {
    if timedOut == [] then data
    else AfterEvalCompletions(AfterEvalComplete(data, timedOut[0]), timedOut[1..])
  }

  /** During one pause the marker is present exactly when it was already
      present or some completed evaluation timed out; no data is ever removed. */
  lemma {:induction false} MarkerRemembersAnyTimeout(data: set<DataKind>, timedOut: seq<bool>)
    ensures EvalTimedOut in AfterEvalCompletions(data, timedOut) <==>
      EvalTimedOut in data || exists i :: 0 <= i < |timedOut| && timedOut[i]
    ensures data <= AfterEvalCompletions(data, timedOut)
    decreases |timedOut|
  {
    if timedOut != [] {
      var next := AfterEvalComplete(data, timedOut[0]);
      MarkerRemembersAnyTimeout(next, timedOut[1..]);
      if exists i :: 0 <= i < |timedOut[1..]| && timedOut[1..][i] {
        var i :| 0 <= i < |timedOut[1..]| && timedOut[1..][i];
        assert timedOut[i + 1];
      }
      if exists i :: 0 <= i < |timedOut| && timedOut[i] {
        var i :| 0 <= i < |timedOut| && timedOut[i];
        if i > 0 {
          assert timedOut[1..][i - 1];
        }
      }
    }
  }

  /** Once an evaluation timed out during a pause, every later check in that
      pause refuses: with the timeout message unless the debuggee is not paused
      or stopped on an unhandled exception, which are checked first. */
  lemma TimedOutPauseStaysDisabled(
    data: set<DataKind>, timedOut: seq<bool>, k: nat,
    isPaused: bool, isUnhandledException: bool, isEvaluating: bool)
    requires k < |timedOut| && timedOut[k]
    ensures var f := GateFlags(isPaused, isUnhandledException,
                               EvalTimedOut in AfterEvalCompletions(data, timedOut), isEvaluating);
      FirstBlocking(CheckOrder, f) != None &&
      (isPaused && !isUnhandledException ==> FirstBlocking(CheckOrder, f) == Some(FuncEvalTimedOutNowDisabled))
  {
    MarkerRemembersAnyTimeout(data, timedOut);
    var f := GateFlags(isPaused, isUnhandledException,
                       EvalTimedOut in AfterEvalCompletions(data, timedOut), isEvaluating);
    NoErrorExactlyWhenAllowed(f);
    CheckPriority(f);
  }

  /** A value created while the debuggee is paused, wrapping a Mono value
      handle. `disposeCount` counts the calls of `Dispose`; what disposing does
      to the underlying handle is not part of this model. */
  class DbgDotNetValueImpl {
    const location: ValueLocation
    const value: MonoValue
    ghost var disposeCount: nat

    constructor (location: ValueLocation, value: MonoValue)
      ensures this.location == location && this.value == value
      ensures disposeCount == 0
    {
      this.location := location;
      this.value := value;
      disposeCount := 0;
    }

    method Dispose()
      modifies this
      ensures disposeCount == old(disposeCount) + 1
    {
      disposeCount := disposeCount + 1;
    }
  }

  /** What creating a value hands back: a synthetic null that only carries the
      location's type and owns nothing in the debuggee, or a tracked value. */
  datatype DbgDotNetValue =
    | SyntheticNullValue(nullType: DmdType)
    | TrackedValue(impl: DbgDotNetValueImpl)

  /** How `TryInvokeMethod` reports an invoke: a returned value with the
      `timedOut` flag, or an exception that it lets through. */
  datatype InvokeResult =
    | Returned(value: Option<MonoValue>, timedOut: bool)
    | Escaped(exception: ExceptionKind)

  /** Recovers the remote call's outcome from what `TryInvokeMethod` reported. */
  function CallOutcomeOf(r: InvokeResult): CallOutcome {
    match r
    case Returned(v, timedOut) => if timedOut then Threw(TimeoutException) else Completed(v)
    case Escaped(e) => Threw(e)
  }

  class DbgEngineImpl {
    var isPaused: bool
    var isUnhandledException: bool
    /** Whether the function-evaluation factory has an evaluation in flight. */
    var isEvaluating: bool
    var dotNetValuesToCloseOnContinue: seq<DbgDotNetValueImpl>
    /** Every value this engine has disposed, in the order it disposed them. */
    ghost var disposed: seq<DbgDotNetValueImpl>

    /** No value is tracked twice, and no value the engine has disposed is
        tracked again or was disposed twice. */
    ghost predicate Valid()
      reads this
    {
      NoDuplicates(disposed + dotNetValuesToCloseOnContinue)
    }

    constructor (isPaused: bool, isUnhandledException: bool, isEvaluating: bool)
      ensures Valid()
      ensures this.isPaused == isPaused && this.isUnhandledException == isUnhandledException
      ensures this.isEvaluating == isEvaluating
      ensures dotNetValuesToCloseOnContinue == [] && disposed == []
    {
      this.isPaused := isPaused;
      this.isUnhandledException := isUnhandledException;
      this.isEvaluating := isEvaluating;
      dotNetValuesToCloseOnContinue := [];
      disposed := [];
    }

    /** The facts the gatekeeper consults for an evaluation in `context`. */
    function Flags(context: DbgEvaluationContext): GateFlags
      reads this, context.continueContext
    {
      GateFlags(isPaused, isUnhandledException,
                context.continueContext.HasData(EvalTimedOut), isEvaluating)
    }

    /** Wraps the value loaded from `valueLocation`; `loaded` is what the Mono
        soft debugger's load of that location returned (None for null). */
    method CreateDotNetValue(valueLocation: ValueLocation, loaded: Option<MonoValue>)
      returns (r: DbgDotNetValue)
      requires Valid()
      modifies this`dotNetValuesToCloseOnContinue
      ensures Valid()
      ensures loaded == None ==>
        r == SyntheticNullValue(valueLocation.locationType) &&
        dotNetValuesToCloseOnContinue == old(dotNetValuesToCloseOnContinue)
      ensures loaded != None ==>
        r.TrackedValue? && fresh(r.impl) &&
        r.impl.location == valueLocation && r.impl.value == loaded.value && r.impl.disposeCount == 0 &&
        dotNetValuesToCloseOnContinue == old(dotNetValuesToCloseOnContinue) + [r.impl]
    {
      if loaded == None {
        return SyntheticNullValue(valueLocation.locationType);
      }
      var dnValue := new DbgDotNetValueImpl(valueLocation, loaded.value);
      ghost var before := disposed + dotNetValuesToCloseOnContinue;
      assert dnValue !in before;
      dotNetValuesToCloseOnContinue := dotNetValuesToCloseOnContinue + [dnValue];
      assert disposed + dotNetValuesToCloseOnContinue == before + [dnValue];
      r := TrackedValue(dnValue);
    }

    /** Closes every value created since the debuggee paused: takes a snapshot
        of the tracked values, clears the list, then disposes the snapshot in
        order. */
    method CloseDotNetValues()
      requires Valid()
      modifies this`dotNetValuesToCloseOnContinue, this`disposed
      modifies set v | v in dotNetValuesToCloseOnContinue
      ensures Valid()
      ensures dotNetValuesToCloseOnContinue == []
      ensures disposed == old(disposed) + old(dotNetValuesToCloseOnContinue)
      ensures forall v :: v in old(dotNetValuesToCloseOnContinue) ==>
        v.disposeCount == old(v.disposeCount) + 1
    {
      var valuesToClose := dotNetValuesToCloseOnContinue;
      dotNetValuesToCloseOnContinue := [];
      assert NoDuplicates(valuesToClose) by {
        forall i, j | 0 <= i < j < |valuesToClose| ensures valuesToClose[i] != valuesToClose[j] {
          var pre := old(disposed) + valuesToClose;
          assert pre[|old(disposed)| + i] == valuesToClose[i] && pre[|old(disposed)| + j] == valuesToClose[j];
        }
      }
      for i := 0 to |valuesToClose|
        invariant dotNetValuesToCloseOnContinue == []
        invariant disposed == old(disposed) + valuesToClose[..i]
        invariant forall j :: 0 <= j < i ==>
          valuesToClose[j].disposeCount == old(valuesToClose[j].disposeCount) + 1
        invariant forall j :: i <= j < |valuesToClose| ==>
          valuesToClose[j].disposeCount == old(valuesToClose[j].disposeCount)
      {
        valuesToClose[i].Dispose();
        disposed := disposed + [valuesToClose[i]];
      }
      assert valuesToClose[..|valuesToClose|] == valuesToClose;
      forall v | v in valuesToClose
        ensures v.disposeCount == old(v.disposeCount) + 1
      {
        var j :| 0 <= j < |valuesToClose| && valuesToClose[j] == v;
      }
    }

    /** Decides whether a function evaluation may start in `context`: None
        allows it, otherwise the first failing check's message. */
    function CheckFuncEval(context: DbgEvaluationContext): (r: Option<FuncEvalError>)
      reads this, context.continueContext
      ensures r == FirstBlocking(CheckOrder, Flags(context))
      ensures r == None <==> Allowed(Flags(context))
    {
      CheckPriority(Flags(context));
      NoErrorExactlyWhenAllowed(Flags(context));
      if !isPaused then Some(CanFuncEvalOnlyWhenPaused)
      else if isUnhandledException then Some(CantFuncEvalWhenUnhandledExceptionHasOccurred)
      else if context.continueContext.HasData(EvalTimedOut) then Some(FuncEvalTimedOutNowDisabled)
      else if isEvaluating then Some(CantFuncEval)
      else None
    }

    /** Invokes a method in the debuggee; `call` is what the remote call did.
        A timeout is reported as a null value with `timedOut` set; any other
        exception is let through. */
    method TryInvokeMethod(call: CallOutcome) returns (r: InvokeResult)
      requires !isEvaluating
      ensures call.Completed? <==> r.Returned? && !r.timedOut
      ensures call == Threw(TimeoutException) <==> r == Returned(None, true)
      ensures r.Escaped? ==> r.exception != TimeoutException
      ensures CallOutcomeOf(r) == call
    {
      match call {
        case Completed(result) =>
          r := Returned(result, false);
        case Threw(TimeoutException) =>
          r := Returned(None, true);
        case Threw(e) =>
          r := Escaped(e);
      }
    }

    /** Completion of an evaluation with its context: records the timeout
        marker in the continue context when the evaluation timed out. */
    method OnFuncEvalComplete(funcEval: FuncEval, context: DbgEvaluationContext)
      modifies context.continueContext
      ensures context.continueContext.data ==
        AfterEvalComplete(old(context.continueContext.data), funcEval.evalTimedOut)
    {
      if funcEval.evalTimedOut {
        context.continueContext.GetOrCreateData(EvalTimedOut);
      }
      OnFuncEvalCompleteCallback(funcEval);
    }

    /** The completion callback without a context, which `TryInvokeMethod`
        hands to the evaluation factory: it does nothing. */
    method OnFuncEvalCompleteCallback(funcEval: FuncEval)
      ensures unchanged(this)
    {
    }
  }
  /** A pause in which an evaluation times out, as a caller of the engine sees
      it through the contracts above: the invoke itself leaves the continue
      context alone, the completion with the context disables evaluation for
      the rest of the pause, and after the values are closed and a new pause
      starts with a fresh continue context evaluation is allowed again. */
  method PauseCycleScenario()
  {
    var pauseData := new DbgEngineContinueContext();
    var context := new DbgEvaluationContext(pauseData);
    var engine := new DbgEngineImpl(true, false, false);
    var gate := engine.CheckFuncEval(context);
    assert gate == None;

    var v := engine.CreateDotNetValue(ValueLocation(0, DmdType("System.String")), Some(MonoValue(7)));
    var n := engine.CreateDotNetValue(ValueLocation(1, DmdType("System.Object")), None);
    assert n == SyntheticNullValue(DmdType("System.Object"));
    assert engine.dotNetValuesToCloseOnContinue == [v.impl];

    var r := engine.TryInvokeMethod(Threw(TimeoutException));
    assert r == Returned(None, true);
    gate := engine.CheckFuncEval(context);
    assert gate == None;

    engine.OnFuncEvalComplete(FuncEval(true), context);
    gate := engine.CheckFuncEval(context);
    assert gate == Some(FuncEvalTimedOutNowDisabled);
    engine.OnFuncEvalComplete(FuncEval(false), context);
    gate := engine.CheckFuncEval(context);
    assert gate == Some(FuncEvalTimedOutNowDisabled);

    engine.CloseDotNetValues();
    assert v.impl.disposeCount == 1;
    assert engine.dotNetValuesToCloseOnContinue == [] && engine.disposed == [v.impl];

    var nextPause := new DbgEngineContinueContext();
    context := new DbgEvaluationContext(nextPause);
    gate := engine.CheckFuncEval(context);
    assert gate == None;
  }
}
