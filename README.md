# Script runner control state machine

This project models the control core of `ScriptRunner`, the class of the
Expanse game that runs a user's robot script on its own worker thread.
The script can suspend inside a host call (a continuation) and be resumed
later with a value. Two actors share four fields without a lock:

- the controller, which calls `start`, `resume`, `stop` and `dispose`;
- the worker thread, which configures the evaluator, compiles the script and
  then loops while the state is not `Stopped`.

The shared fields are `state` (`Pending`, `Running`, `Paused`, `Stopped`),
the stored continuation, the result for the next resume, and the loop flag.
Beside them the model keeps:

- the evaluator's abort flag;
- where the worker thread is (`Unstarted`, `Configuring`, `Looping`, `Exited`);
- whether the capability list handed to the constructor is still held;
- whether `dispose` ran to the end.

Files:

- `runner_model.dfy`, module `RunnerModel`: the fields as one value
  (`Runner`). It has one function per atomic step: the control calls, the
  worker's configure-and-compile step, one iteration of its run loop, and its
  `finally` block. The evaluator is abstract. A worker step is told how the
  evaluator call ended (an `Outcome`: returned, suspended with a new
  continuation, aborted, interrupted, or failed with any other exception).
  `Invocation` says which call the step makes, and `Possible` which outcomes
  that call can end with: a sleep only returns or is interrupted, and only a
  sleep is interrupted. `Inv` is the invariant.
- `runner_traces.dfy`, module `RunnerTraces`: concurrency as an arbitrary
  interleaving of those steps (`Next`, `Run`). The lemmas here hold for
  every interleaving.
- `script_runner.dfy`, module `Scripts`: the class `ScriptRunner` with the
  same fields, updated in place. Each method's postcondition gives its new
  state through the matching `RunnerModel` step, and `Valid()` (the fields
  satisfy `Inv`) is kept by every method except `start()` on a runner that
  already started. `RunWorker` holds the
  worker's `while (state != Stopped)` loop.

Behaviour of the code worth knowing:

- The invariant one might expect, "a continuation is stored if and only if
  Paused", does not hold in the code. After `resume` the state is `Running` while the
  continuation is still stored, until the worker consumes it. After
  `stop()` from `Paused` the state is `Stopped` while the continuation is
  still stored, until the worker's `finally` block drops it. The model proves
  the part that holds: Paused implies a stored continuation, and a pending
  result implies a stored continuation.
- A suspension while a continuation is stored is not rejected. It happens
  only when the worker has just resumed that continuation, and it replaces
  it.
- `start()` does not check the state (see Findings).
- `stop()` from `Running` before the worker has created the evaluator context
  (ScriptRunner.java:152) throws a `NullPointerException`. The loop flag is
  already cleared when it throws. The model answers `NoContext`. The model's
  configure-and-compile step is atomic, so it treats the whole of that step
  as before the context exists.
- `dispose()` completes when the capability list is still held once its
  `stop()` has returned: on a runner that never started, or on one whose
  configuration failed before loading the host functions dropped the list
  (ScriptRunner.java:127). In the model a `dispose()` while the worker
  configures fails (see Left out). Once the list is dropped, `dispose` throws
  after `stop()` has run. The model's configure-and-compile step therefore
  ends in one of three ways (`Setup`): compiled, failed holding the list, or
  failed after dropping it.
- No listener is ever called.

The interleaving lemmas of `RunnerTraces` use the corrected `start()`, which
acts only on a new runner. With `start()` as written, Stopped is not
terminal (see Findings).

## Model

| member | source | states |
|---|---|---|
| `RunnerModel.Init` | core/src/de/macbury/expanse/core/scripts/ScriptRunner.java:34-40 | a new runner is Pending with no continuation or result, keeps the loop flag, and satisfies the invariant |
| `RunnerModel.Start` | core/src/de/macbury/expanse/core/scripts/ScriptRunner.java:45-48 | start() as written: the state becomes Running whatever it was; the thread starts only if it never started and was not disposed |
| `RunnerModel.StartChecked` | core/src/de/macbury/expanse/core/scripts/ScriptRunner.java:42-48 | start() acts exactly when Pending and never started, then behaves as written; otherwise nothing changes; it keeps the invariant |
| `RunnerModel.Resume` | core/src/de/macbury/expanse/core/scripts/ScriptRunner.java:63-71 | succeeds exactly when Paused, then Running with the value stored and the continuation kept; otherwise nothing changes; keeps the invariant; the next worker step resumes the stored continuation with that value |
| `RunnerModel.Stop` | core/src/de/macbury/expanse/core/scripts/ScriptRunner.java:77-93 | from Running with the worker looping: loop cleared, abort requested, answer true only with the worker exited, Stopped, no continuation or result; from Running before the context exists: loop cleared and the NullPointerException; from Paused: Stopped and true; from Pending or Stopped: false and nothing changes; keeps the invariant |
| `RunnerModel.Dispose` | core/src/de/macbury/expanse/core/scripts/ScriptRunner.java:160-170 | runs stop(); completes (dropping the list, releasing the runner and its continuation) exactly when the capability list is still held and the worker is not configuring, leaving state and worker as stop() found them; never completes once the list is gone; otherwise leaves what stop() did; keeps the invariant |
| `RunnerModel.Invocation` | core/src/de/macbury/expanse/core/scripts/ScriptRunner.java:189-199 | a Running runner resumes its stored continuation with the stored result, or runs the script from the top when none is stored; any other state sleeps |
| `RunnerModel.WorkerRun` | core/src/de/macbury/expanse/core/scripts/ScriptRunner.java:177-235 | the whole worker thread alone keeps the invariant and either is still looping, not Stopped, or has exited Stopped with no continuation or result; a failed configuration or compile exits at once; the capability list survives only a failure before it was dropped |
| `RunnerModel.WorkerBegin` | core/src/de/macbury/expanse/core/scripts/ScriptRunner.java:120-183 | on a successful compile the worker enters its loop Running with the capability list dropped, and under the invariant the Running write changes nothing else; a failure leads to the finally block (Stopped, cleared), the list still held exactly when the failure came before it was dropped |
| `RunnerModel.WorkerStep` | core/src/de/macbury/expanse/core/scripts/ScriptRunner.java:187-226 | one loop iteration, its outcome one its call can end with: a normal return clears the continuation, and the result when a continuation was resumed, and leaves Running if looping, Stopped otherwise; a suspension stores the new continuation and pauses, and replaces a stored one only right after resuming it; abort or interrupt give Stopped and change nothing else; a suspension changes nothing but the continuation and the state; any other failure exits through the finally block; on a runner not Running the step only sleeps, leaving it unchanged or, when interrupted, Stopped with continuation and result untouched; keeps the invariant |
| `RunnerModel.WorkerExit` | core/src/de/macbury/expanse/core/scripts/ScriptRunner.java:228-234 | any exit leaves Stopped with no continuation or result, and the worker exited |
| `RunnerModel.WorkerLoop` | core/src/de/macbury/expanse/core/scripts/ScriptRunner.java:187-231 | the worker alone keeps the invariant and leaves its loop only through the finally block, Stopped with no continuation or result; otherwise it is still looping and not Stopped |
| `RunnerTraces.Next` | core/src/de/macbury/expanse/core/scripts/ScriptRunner.java:45-231 | with start() acting only on a new runner (the corrected start), every atomic step of controller or worker keeps the invariant, never leaves Stopped, and after the worker exited changes nothing but a dispose's release of a list the failed configuration kept; any worker step on a Paused runner leaves it unchanged or Stopped by an interrupted sleep |
| `RunnerTraces.RunPreservesInv` | core/src/de/macbury/expanse/core/scripts/ScriptRunner.java:45-234 | with start() acting only on a new runner (the corrected start), every interleaving keeps the invariant: Paused implies a stored continuation, a pending result implies one |
| `RunnerTraces.ReachableInv` | core/src/de/macbury/expanse/core/scripts/ScriptRunner.java:34-40 | with start() acting only on a new runner (the corrected start), every state reachable from a new runner satisfies the invariant |
| `RunnerTraces.StoppedIsTerminal` | core/src/de/macbury/expanse/core/scripts/ScriptRunner.java:187 | with start() acting only on a new runner (the corrected start), no interleaving leaves Stopped |
| `RunnerTraces.ExitedIsFinal` | core/src/de/macbury/expanse/core/scripts/ScriptRunner.java:228-231 | with start() acting only on a new runner (the corrected start), after the worker exited the runner is Stopped with no continuation or result and no interleaving changes it, except that a dispose releases a capability list a failed configuration kept |
| `RunnerTraces.PausedWaitsForController` | core/src/de/macbury/expanse/core/scripts/ScriptRunner.java:206-207 | while Paused, any sequence of worker steps leaves the runner unchanged, or Stopped by an interrupted sleep with continuation and result untouched, or after that exited through the finally block; only the controller resumes it |
| `RunnerTraces.LoopingNeverStops` | core/src/de/macbury/expanse/core/scripts/ScriptRunner.java:193-205 | with the loop flag set, any number of normal returns leave the runner Running and looping, restarting from the top with no continuation or result |
| `RunnerTraces.ReturningScriptStops` | core/src/de/macbury/expanse/core/scripts/ScriptRunner.java:45-234 | a run-once script that returns goes Pending, Running, then Stopped, runs from the top, and the worker exits |
| `RunnerTraces.SuspendResumeRoundTrip` | core/src/de/macbury/expanse/core/scripts/ScriptRunner.java:193-199 | a suspension pauses with that continuation; resume(v) makes the worker resume exactly it with v; a return then stops the runner and clears continuation and result |
| `RunnerTraces.StopFromPausedThenExit` | core/src/de/macbury/expanse/core/scripts/ScriptRunner.java:87-89 | stop() from Paused answers true without waking the worker, whose next step exits Stopped and cleared |
| `RunnerTraces.RestartAfterExitLeavesRunning` | core/src/de/macbury/expanse/core/scripts/ScriptRunner.java:45-48 | start() as written after the worker exited breaks the invariant: Running with no worker, and stop() answers true yet the runner stays Running (or throws for want of a context after a dispose) |
| `RunnerTraces.StartWhilePausedResumes` | core/src/de/macbury/expanse/core/scripts/ScriptRunner.java:45-48 | start() as written while Paused makes the worker resume the continuation with no value supplied |
| `RunnerTraces.RestartAfterCompletedRun` | core/src/de/macbury/expanse/core/scripts/ScriptRunner.java:45-234 | the restart counterexample is reachable from a new runner whose script returned once |
| `RunnerTraces.DisposeAfterFailedConfiguration` | core/src/de/macbury/expanse/core/scripts/ScriptRunner.java:120-170 | after start(), a configuration that fails before the list is dropped leaves the worker exited with the list held, and dispose() completes; one that fails after the drop makes dispose() fail |
| `Scripts.ScriptRunner.constructor` | core/src/de/macbury/expanse/core/scripts/ScriptRunner.java:34-40 | the fields equal a new runner |
| `Scripts.ScriptRunner.Start` | core/src/de/macbury/expanse/core/scripts/ScriptRunner.java:45-48 | writes Running in place and starts the thread as `RunnerModel.Start` says |
| `Scripts.ScriptRunner.StartAndWait` | core/src/de/macbury/expanse/core/scripts/ScriptRunner.java:50-57 | start(), then the worker's whole run alone; when it exits the runner is Stopped and cleared |
| `Scripts.ScriptRunner.Resume` | core/src/de/macbury/expanse/core/scripts/ScriptRunner.java:63-71 | true exactly when Paused, then Running with the value stored; otherwise the object is unchanged |
| `Scripts.ScriptRunner.Stop` | core/src/de/macbury/expanse/core/scripts/ScriptRunner.java:77-93 | updates the fields as `RunnerModel.Stop`, the join done by running the worker's abort step and finally block |
| `Scripts.ScriptRunner.Dispose` | core/src/de/macbury/expanse/core/scripts/ScriptRunner.java:160-170 | stop() then clear the list and release, as `RunnerModel.Dispose`; on a valid object completes exactly when the list is still held and the worker is not configuring, never once the list is gone |
| `Scripts.ScriptRunner.WorkerBegin` | core/src/de/macbury/expanse/core/scripts/ScriptRunner.java:120-183 | updates the fields as `RunnerModel.WorkerBegin`, dropping the capability list unless configuration failed before it; keeps `Valid()` |
| `Scripts.ScriptRunner.WorkerStep` | core/src/de/macbury/expanse/core/scripts/ScriptRunner.java:187-226 | makes the evaluator call `Invocation` names, accepts only an outcome that call can end with, and updates the fields as `RunnerModel.WorkerStep`; on an object not Running it changes nothing, or only stops it when the sleep is interrupted; keeps `Valid()` |
| `Scripts.ScriptRunner.WorkerExit` | core/src/de/macbury/expanse/core/scripts/ScriptRunner.java:228-234 | updates the fields as `RunnerModel.WorkerExit` |
| `Scripts.ScriptRunner.RunWorker` | core/src/de/macbury/expanse/core/scripts/ScriptRunner.java:177-235 | the worker's loop, one outcome per iteration, ends as `RunnerModel.WorkerRun`; when it exits the runner is Stopped and cleared |

## Findings

| source | as written | input that shows it | evidently intended | confidence | as-written member | corrected member |
|---|---|---|---|---|---|---|
| core/src/de/macbury/expanse/core/scripts/ScriptRunner.java:45-48 | `start()` writes Running before starting the thread and never checks the state; a second start throws only after that write | a run-once script returns and the worker exits; then `start()` (which throws) and `stop()` | `start()` acts only on a Pending runner that never started; Stopped stays terminal | not executed; the write order is plain in the code | `RunnerTraces.RestartAfterExitLeavesRunning` (with `RunnerTraces.RestartAfterCompletedRun`, `RunnerTraces.StartWhilePausedResumes`) | `RunnerModel.StartChecked`, used by `RunnerTraces.Next`, with `RunnerTraces.StoppedIsTerminal` |

## Left out

- Threads, `join` and `Thread.sleep` are not modelled as such. Concurrency is
  an interleaving of atomic steps. Real data races on the unsynchronized
  fields are out of scope.
- RunnerModel.Stop and Scripts.ScriptRunner.Stop: the call from Running is one atomic step, including the
  worker's run to its exit. The model assumes the evaluator call in flight
  observes the abort and ends with the abort path. If that call suspends
  first, the worker parks in Paused and the join never returns; the model
  does not capture this.
- The evaluator (`Context.enter/exit`, `compileString`,
  `executeScriptWithContinuations`, `resumeContinuation`) is a foreign
  library. It is replaced by the `Outcome` parameter and the `Call` the step
  reports.
- The model treats the evaluator context as existing once the worker has
  entered its loop or exited, and the configure-and-compile step as atomic.
  A `stop()` in the window where configuration has created the context
  (ScriptRunner.java:152) but not finished is modelled as the
  NullPointerException of the window before it. Failures in configuration
  are told apart only by whether the capability list was dropped yet.
- RunnerModel.Dispose and Scripts.ScriptRunner.Dispose: a `dispose()` while
  the worker is configuring always fails, as its `stop()` does in the model.
  In the code, a `dispose()` after the context exists (ScriptRunner.java:152)
  joins the worker and then completes if configuration failed before the
  list was dropped (ScriptRunner.java:127); the model does not capture that
  window.
- Registering host functions by reflection (`registerFunctionsFromObject`)
  and loading the core helper functions from classpath `.js` files
  (`loadCoreFunctions`) are reflection and file I/O. The only effect
  modelled is that loading drops the capability list, which makes `dispose`
  throw.
- The `ScriptListener` interface is declared but never called, so it has no
  behaviour to model.
- Scripts.ScriptRunner.RunWorker: the worker's loop is given a finite list of
  evaluator outcomes, and passes over an outcome the iteration's call cannot
  end with. When the list runs out with the loop still going, the
  method reports that the thread has not exited, instead of running forever.
- The other files of the game (terrain, rendering, octree, screens, entity
  components, texture packing) are not part of this model.
