/** Values exchanged between the Mono debugger engine and the Mono soft-debugger
    library, reduced to what the evaluation bookkeeping looks at. */
module MonoTypes {

  datatype Option<+T> = None | Some(value: T)

  /** A runtime type of the debuggee (`DmdType`), identified by its full name. */
  datatype DmdType = DmdType(fullName: string)

  /** A place in the paused debuggee's memory that can be loaded: a local, an
      argument, a field, an array element or an evaluation result, with the
      type the location is declared to hold. */
  datatype ValueLocation = ValueLocation(id: nat, locationType: DmdType)

  /** A value handle owned by the Mono soft debugger (`Mono.Debugger.Soft.Value`). */
  datatype MonoValue = MonoValue(handle: nat)

  /** The error messages the evaluation gatekeeper can report
      (`PredefinedEvaluationErrorMessages`). */
  datatype FuncEvalError =
    | CanFuncEvalOnlyWhenPaused
    | CantFuncEvalWhenUnhandledExceptionHasOccurred
    | FuncEvalTimedOutNowDisabled
    | CantFuncEval

  /** Exceptions that can leave `FuncEval.CallMethod(...).Result`.
      `TimeoutException` stands for `System.TimeoutException` and every class
      derived from it, all of which a `catch (TimeoutException)` catches;
      `OtherException` is any exception outside that family. */
  datatype ExceptionKind = TimeoutException | OtherException(name: string)

  /** What the remote call of one function evaluation did: it produced a value
      (possibly the debuggee's null) or it threw. */
  datatype CallOutcome = Completed(result: Option<MonoValue>) | Threw(exception: ExceptionKind)

  /** A finished Mono function evaluation, as its completion callback sees it. */
  datatype FuncEval = FuncEval(evalTimedOut: bool)

  /** Whether no element occurs twice in `s`. */
  predicate NoDuplicates<T(==)>(s: seq<T>) {
    forall i, j :: 0 <= i < j < |s| ==> s[i] != s[j]
  }
}
