# Function-evaluation bookkeeping of dnSpy's Mono debugger engine

This project models the part of dnSpy's Mono debugger engine that keeps track of
function evaluations, that is, method calls the debugger injects into a paused
debuggee. It covers four pieces of `DbgEngineImpl`:

- **The gatekeeper `CheckFuncEval`.** It runs an ordered chain of checks: not paused,
  stopped on an unhandled exception, an earlier evaluation in this pause timed
  out, an evaluation already running. The first check that fails gives the
  error message. No error means the evaluation may start.
- **The value lifecycle.** `CreateDotNetValue` turns a loaded location into a
  value. A null load gives a synthetic null that carries the location's type and
  is not tracked. Any other load is wrapped and appended to the list of values
  to close on continue. `CloseDotNetValues` snapshots that list, clears it, and
  disposes the snapshot in order.
- **The timeout marker.** `OnFuncEvalComplete(funcEval, context)` attaches an
  `EvalTimedOut` entry to the continue context when the evaluation timed out.
  Attaching it again changes nothing, and nothing here removes it.
- **`TryInvokeMethod`'s outcome mapping.** A completed call gives its value with
  `timedOut = false`. A `TimeoutException` gives null with `timedOut = true`.
  Any other exception propagates.

Layout:

- `types.dfy` (module `MonoTypes`) holds the values shared with the Mono soft
  debugger: locations, value handles, error messages, call outcomes.
- `gatekeeper.dfy` (module `FuncEvalGate`) gives the reference meaning of an
  ordered chain of checks (`FirstBlocking`) and proves its first-match
  properties. It also proves the priority of the engine's four checks.
- `engine.dfy` (module `MonoEngine`) has the classes.
  - `DbgEngineContinueContext` holds the continue context's data as a set of
    data kinds.
  - `DbgDotNetValueImpl` is a tracked value with a ghost count of its `Dispose`
    calls.
  - `DbgEngineImpl` has the engine's flags, the list `dotNetValuesToCloseOnContinue`,
    and a ghost log `disposed` of the values it disposed, in order. Its
    invariant `Valid()` says no value occurs twice in the log followed by the
    list, so no value is tracked twice or disposed twice by the engine.
  - Pure functions over the continue context's data (`AfterEvalComplete`,
    `AfterEvalCompletions`) specify the marker, with lemmas about one pause.
  - `PauseCycleScenario` is a client that walks through one pause in which an
    evaluation times out, using only the contracts.

The foreign calls become parameters. `ValueLocation.Load()` becomes
`CreateDotNetValue`'s `loaded` argument. `funcEval.CallMethod(...).Result`
becomes `TryInvokeMethod`'s `call` argument, which says whether the call
returned or which exception it threw.

One might expect the invoke to record a timeout through its completion
callback. It does not: at `DbgEngineImpl.Evaluation.cs:81` the callback passed
to the evaluation factory is the one-argument `OnFuncEvalComplete`, whose body
at `DbgEngineImpl.Evaluation.cs:96-97` is empty. `TryInvokeMethod` modifies
nothing, so it never sets the marker; the marker is set only by
`OnFuncEvalComplete(funcEval, context)`.
`PauseCycleScenario` shows both facts.

## Model

| member | source | states |
|---|---|---|
| `MonoEngine.DbgEngineImpl.CheckFuncEval` | Extensions/dnSpy.Debugger/dnSpy.Debugger.DotNet.Mono/Impl/DbgEngineImpl.Evaluation.cs:60-71 | The result is the first failing check in the order not paused, unhandled exception, timeout marker, evaluating (`FirstBlocking` over `CheckOrder`). It is no error exactly when the engine is paused, with no unhandled exception, no marker and no evaluation running. It reads state and changes none. |
| `FuncEvalGate.FirstBlockingIsFirstMatch` | Extensions/dnSpy.Debugger/dnSpy.Debugger.DotNet.Mono/Impl/DbgEngineImpl.Evaluation.cs:62-70 | An ordered chain of checks reports an error whose condition really holds, and every earlier condition is false. It reports nothing exactly when no condition holds. |
| `FuncEvalGate.CheckPriority` | Extensions/dnSpy.Debugger/dnSpy.Debugger.DotNet.Mono/Impl/DbgEngineImpl.Evaluation.cs:62-69 | Not paused gives `CanFuncEvalOnlyWhenPaused` whatever the other flags are. Paused with an unhandled exception gives `CantFuncEvalWhenUnhandledExceptionHasOccurred` even with the marker set or an evaluation running. Next, the marker gives `FuncEvalTimedOutNowDisabled` even while evaluating. Last, evaluating gives `CantFuncEval`. |
| `FuncEvalGate.NoErrorExactlyWhenAllowed` | Extensions/dnSpy.Debugger/dnSpy.Debugger.DotNet.Mono/Impl/DbgEngineImpl.Evaluation.cs:60-71 | The engine's chain of checks reports no error if and only if paused, no unhandled exception, no marker and no evaluation running. |
| `MonoEngine.DbgEngineImpl.CreateDotNetValue` | Extensions/dnSpy.Debugger/dnSpy.Debugger.DotNet.Mono/Impl/DbgEngineImpl.Evaluation.cs:32-42 | A null load returns a synthetic null carrying the location's type and leaves the tracked list unchanged. A non-null load returns a fresh value for that location and handle, not yet disposed. The tracked list becomes the old list with exactly that value appended. The invariant that nothing is tracked or disposed twice is kept. |
| `MonoEngine.DbgEngineImpl.CloseDotNetValues` | Extensions/dnSpy.Debugger/dnSpy.Debugger.DotNet.Mono/Impl/DbgEngineImpl.Evaluation.cs:44-53 | Afterwards the tracked list is empty. Every value of the old list is disposed exactly once, in list order: the dispose log grows by exactly the old list. Only those values may change, by the frame. The invariant is kept. |
| `MonoEngine.DbgDotNetValueImpl.Dispose` | Extensions/dnSpy.Debugger/dnSpy.Debugger.DotNet.Mono/Impl/DbgEngineImpl.Evaluation.cs:51-52 | Each dispose call the engine makes on a value is counted once on that value. |
| `MonoEngine.DbgEngineImpl.TryInvokeMethod` | Extensions/dnSpy.Debugger/dnSpy.Debugger.DotNet.Mono/Impl/DbgEngineImpl.Evaluation.cs:73-88 | Requires that no evaluation is running. A completed call gives its result with `timedOut = false`, and only a completed call does. A `TimeoutException` gives null with `timedOut = true`, and only a timeout does. Other exceptions propagate unchanged. The call outcome can always be recovered from the report (`CallOutcomeOf`). The method changes no state, so it never sets the timeout marker. |
| `MonoEngine.DbgEngineImpl.OnFuncEvalComplete` | Extensions/dnSpy.Debugger/dnSpy.Debugger.DotNet.Mono/Impl/DbgEngineImpl.Evaluation.cs:90-94 | The continue context's data becomes `AfterEvalComplete(old data, funcEval.EvalTimedOut)`. Only the continue context changes. |
| `MonoEngine.DbgEngineImpl.OnFuncEvalCompleteCallback` | Extensions/dnSpy.Debugger/dnSpy.Debugger.DotNet.Mono/Impl/DbgEngineImpl.Evaluation.cs:96-97 | The one-argument completion callback changes nothing. |
| `MonoEngine.DbgEngineContinueContext.GetOrCreateData` | Extensions/dnSpy.Debugger/dnSpy.Debugger.DotNet.Mono/Impl/DbgEngineImpl.Evaluation.cs:92 | Afterwards the context holds data of the requested kind. All other data is kept and nothing else is added, so a second call changes nothing. |
| `MonoEngine.AfterEvalComplete` | Extensions/dnSpy.Debugger/dnSpy.Debugger.DotNet.Mono/Impl/DbgEngineImpl.Evaluation.cs:91-92 | The marker is present afterwards if and only if it was present before or the evaluation timed out. No data is removed, and the marker is the only data that may be added. |
| `MonoEngine.AfterEvalCompleteIdempotent` | Extensions/dnSpy.Debugger/dnSpy.Debugger.DotNet.Mono/Impl/DbgEngineImpl.Evaluation.cs:91-92 | Recording the same completion twice has the same effect as recording it once. |
| `MonoEngine.MarkerRemembersAnyTimeout` | Extensions/dnSpy.Debugger/dnSpy.Debugger.DotNet.Mono/Impl/DbgEngineImpl.Evaluation.cs:90-94 | After any series of completions in one pause, the marker is present if and only if it was present at the start or some completed evaluation timed out. No data is ever removed, so the marker is never cleared. |
| `MonoEngine.TimedOutPauseStaysDisabled` | Extensions/dnSpy.Debugger/dnSpy.Debugger.DotNet.Mono/Impl/DbgEngineImpl.Evaluation.cs:66-67 | Once any completion in a pause timed out, every later check in that pause refuses. The refusal is `FuncEvalTimedOutNowDisabled` unless the engine is not paused or stopped on an unhandled exception. |

## Left out

- `ValueLocation.Load()`, `FuncEval.CallMethod(...).Result` and `funcEvalFactory.CreateFuncEval` are calls into the Mono soft-debugger library. Their results are parameters of `CreateDotNetValue` and `TryInvokeMethod`.
- `TryInvokeMethod`: the thread, target object, method and arguments are not modelled. They only pass through to the remote call, whose outcome is a parameter. Which exception `.Result` raises on a timeout depends on `FuncEval`, which is not part of this model. The model takes `TimeoutException` as the outcome that line 84 catches.
- `TryInvokeMethod`: the default timeout, `suspendOtherThreads`, the cancellation token and the blocking wait are timing and concurrency behaviour. The `using` block that releases the evaluation resource is not modelled either.
- `lock (lockObj)` is modelled as atomic sequential execution. `debuggerThread.VerifyAccess()` is taken as always satisfied.
- `IsEvaluating` and `MethodInvokeCounter` are implemented in the function-evaluation factory, which is not part of this model. `IsEvaluating` is an engine field that the model reads and never sets. `MethodInvokeCounter` is not modelled.
- `IsPaused` and `isUnhandledException` are set elsewhere in the engine. They are fields that this model reads and never changes.
- Creating and dropping the continue context on pause and continue happens outside this file. The model only shows that nothing here clears the marker.
- `DbgDotNetValueImpl.Dispose` is implemented elsewhere. The model only counts the calls.
- CloseDotNetValues: `Dispose` is taken never to throw. If a `Dispose` call at line 52 threw, the `foreach` would stop. The list was already cleared at line 49, so the values left in the snapshot would then be neither disposed nor tracked: they would leak. The model does not capture that path.
- `CheckFuncEval` returns the error as a `DbgDotNetValueResult` wrapping a message string. The model returns the message's name as `Option<FuncEvalError>`.
- `CloseDotNetValues` takes its snapshot as `Array.Empty` when the list is empty and as `ToArray()` otherwise. Both are an immutable snapshot, modelled as a `seq`.
