/** The control state of a script runner and every atomic step that the
    controller (start, resume, stop, dispose) or the worker thread (configure
    and compile, one iteration of the run loop, the finally block) takes on it.

    The evaluator is abstract: the worker step is told how the evaluator call
    ended (an `Outcome`), and it reports which call it made (a `Call`).
    Concurrency is an arbitrary interleaving of these steps (`Run`). */
module RunnerModel {

  datatype Option<T> = None | Some(value: T)

  /** The four states of the runner. */
  datatype State = Pending | Running | Paused | Stopped

  /** Where the worker thread is: not started yet, configuring the context and
      compiling the script, inside its run loop, or past its finally block. */
  datatype Phase = Unstarted | Configuring | Looping | Exited

  /** How the body of one run-loop iteration ended: it returned normally, the
      script suspended with a new continuation, the script was stopped by the
      user's abort request, the sleep was interrupted, or any other exception
      escaped the loop. */
  datatype Outcome<C> = Returned | Suspended(next: C) | Aborted | Interrupted | Failed

  /** What one iteration of the run loop asks for: resume the stored
      continuation with the stored result, run the compiled script from the
      top, or sleep because the runner is not Running. */
  datatype Call<C, V> = ResumeContinuation(cont: C, value: Option<V>) | ExecuteFromTop | Sleep

  /** How the worker's configure-and-compile step ended: the script compiled,
      or an exception escaped before the capability list was dropped, or one
      escaped after it was dropped. */
  datatype Setup = Compiled | FailedHoldingList | FailedAfterDroppingList

  /** What stop() gives its caller: a boolean, or the NullPointerException it
      throws when the evaluator context has not been created. */
  datatype StopAnswer = Answered(stopped: bool) | NoContext

  /** The fields shared by the controller and the worker. `cont` is the stored
      suspension, `result` the value for the next resume, `abortRequested` the
      abort flag of the evaluator context, `listHeld` that the capability list
      is still there, `released` that dispose ran to the end. */
  datatype Runner<C, V> = Runner(
    state: State,
    cont: Option<C>,
    result: Option<V>,
    loop: bool,
    abortRequested: bool,
    phase: Phase,
    listHeld: bool,
    released: bool)

  /** The invariant every step of the corrected system keeps. */
  predicate Inv<C, V>(s: Runner<C, V>) {
    && (s.state == Paused ==> s.cont.Some?)
    && (s.result.Some? ==> s.cont.Some?)
    && (s.state == Pending <==> s.phase == Unstarted)
    && (s.phase == Unstarted ==> s.cont.None? && !s.abortRequested)
    && (s.phase == Configuring ==> s.state == Running && s.cont.None? && !s.abortRequested)
    && (s.phase == Exited ==> s.state == Stopped && s.cont.None?)
    && (s.abortRequested ==> s.phase == Exited)
    && (s.released ==> (s.phase == Unstarted || s.phase == Exited) && !s.listHeld)
    && (s.phase == Unstarted ==> (s.listHeld <==> !s.released))
    && (s.phase == Configuring ==> s.listHeld)
    && (s.phase == Looping ==> !s.listHeld)
  }

  /** The evaluator context exists once the worker has configured it, until
      dispose drops it. */
  predicate ContextReady<C, V>(s: Runner<C, V>) {
    !s.released && (s.phase == Looping || s.phase == Exited)
  }

  /** A freshly constructed runner. */
  function Init<C, V>(loop: bool): (s: Runner<C, V>)
    ensures Inv(s)
    ensures s.state == Pending && s.loop == loop && s.cont.None? && s.result.None? && s.listHeld
  {
    Runner(Pending, None, None, loop, false, Unstarted, true, false)
  }

  /** start() as written: the state becomes Running whatever it was, and the
      worker thread starts only if it never started before and dispose has not
      dropped it (otherwise the thread call throws, after the state write). */
  function Start<C, V>(s: Runner<C, V>): (r: (Runner<C, V>, bool))
    ensures r.0.state == Running
    ensures r.1 <==> s.phase == Unstarted && !s.released
    ensures r.0.cont == s.cont && r.0.result == s.result && r.0.loop == s.loop
  {
    var started := s.phase == Unstarted && !s.released;
    (s.(state := Running, phase := if started then Configuring else s.phase), started)
  }

  /** start() as intended: it acts only on a runner that is Pending and never
      started, and otherwise changes nothing. */
  function StartChecked<C, V>(s: Runner<C, V>): (r: (Runner<C, V>, bool))
    ensures r.1 <==> s.state == Pending && s.phase == Unstarted && !s.released
    ensures r.1 ==> r.0 == Start(s).0 && r.0.phase == Configuring
    ensures !r.1 ==> r.0 == s
    ensures Inv(s) ==> Inv(r.0)
  {
    if s.state == Pending && s.phase == Unstarted && !s.released then Start(s) else (s, false)
  }

  /** resume(v). */
  function Resume<C, V>(s: Runner<C, V>, v: V): (r: (Runner<C, V>, bool))
    ensures r.1 <==> s.state == Paused
    ensures !r.1 ==> r.0 == s
    ensures r.1 ==> r.0.state == Running && r.0.result == Some(v)
    ensures r.1 ==> r.0.cont == s.cont && r.0.loop == s.loop && r.0.phase == s.phase
    ensures Inv(s) ==> Inv(r.0)
    ensures Inv(s) && r.1 ==> Invocation(r.0) == ResumeContinuation(s.cont.value, Some(v))
  {
    if s.state == Paused then (s.(state := Running, result := Some(v)), true) else (s, false)
  }

  /** The evaluator call one iteration of the run loop makes in state `s`:
      a Running runner resumes its stored continuation with the stored result,
      or runs the script from the top when none is stored; any other state
      only sleeps. */
  function Invocation<C, V>(s: Runner<C, V>): (c: Call<C, V>)
    ensures c.ResumeContinuation? <==> s.state == Running && s.cont.Some?
    ensures c.ResumeContinuation? ==> c.cont == s.cont.value && c.value == s.result
    ensures c.ExecuteFromTop? <==> s.state == Running && s.cont.None?
    ensures c.Sleep? <==> s.state != Running
  {
    if s.state == Running then
      if s.cont.Some? then ResumeContinuation(s.cont.value, s.result) else ExecuteFromTop
    else
      Sleep
  }

  /** The outcomes the call of state `s` can end with. A sleep only returns or
      is interrupted; the evaluator's calls never throw an interruption. */
  predicate Possible<C, V>(s: Runner<C, V>, o: Outcome<C>) {
    if Invocation(s).Sleep? then o.Returned? || o.Interrupted? else !o.Interrupted?
  }

  /** The worker configures the context and compiles the script; loading the
      core functions drops the capability list on the way. On success it
      writes Running and enters the loop, on any exception its finally block
      runs, with the list still held only if the exception came before the drop. */
  function WorkerBegin<C, V>(s: Runner<C, V>, setup: Setup): (r: Runner<C, V>)
    requires s.phase == Configuring
    ensures setup.Compiled? ==> r.state == Running && r.phase == Looping
    ensures !setup.Compiled? ==> r.state == Stopped && r.phase == Exited && r.cont.None? && r.result.None?
    ensures r.listHeld <==> setup.FailedHoldingList? && s.listHeld
    ensures Inv(s) ==> Inv(r)
    ensures Inv(s) && setup.Compiled? ==> r == s.(phase := Looping, listHeld := false)
  {
    match setup
    case Compiled => s.(state := Running, phase := Looping, listHeld := false)
    case FailedHoldingList => WorkerExit(s)
    case FailedAfterDroppingList => WorkerExit(s.(listHeld := false))
  }

  /** The worker's finally block: whatever way the loop was left, the stored
      continuation and result are dropped and the state is Stopped. */
  function WorkerExit<C, V>(s: Runner<C, V>): (r: Runner<C, V>)
    ensures r.state == Stopped && r.phase == Exited && r.cont.None? && r.result.None?
    ensures r.loop == s.loop && r.abortRequested == s.abortRequested
    ensures r.listHeld == s.listHeld && r.released == s.released
    ensures !s.released ==> Inv(r)
  {
    s.(cont := None, result := None, state := Stopped, phase := Exited)
  }

  /** One iteration of the run loop, entered because the state is not Stopped. */
  function WorkerStep<C, V>(s: Runner<C, V>, o: Outcome<C>): (r: Runner<C, V>)
    requires s.phase == Looping && s.state != Stopped
    requires Possible(s, o)
    ensures Inv(s) ==> Inv(r)
    ensures s.state != Running ==> r == s || r == s.(state := Stopped)
    ensures s.state != Running && r != s ==> o.Interrupted?
    ensures o.Suspended? && s.cont.Some? ==> Invocation(s) == ResumeContinuation(s.cont.value, s.result)
    ensures r.phase == Exited <==> o.Failed?
    ensures o.Failed? ==> r.state == Stopped && r.cont.None? && r.result.None?
    ensures o.Suspended? ==> r == s.(cont := Some(o.next), state := Paused)
    ensures o.Aborted? || o.Interrupted? ==> r == s.(state := Stopped)
    ensures s.state == Paused && o.Returned? ==> r == s
    ensures s.state == Running && o.Returned? ==>
              r.state == (if s.loop then Running else Stopped) && r.cont.None?
              && (s.cont.Some? ==> r.result.None?)
    ensures r.loop == s.loop && r.abortRequested == s.abortRequested
    ensures r.listHeld == s.listHeld && r.released == s.released
  {
    match o
    case Returned =>
      (match Invocation(s)
       case ResumeContinuation(_, _) =>
         var consumed := s.(result := None, cont := None);
         if s.loop then consumed else consumed.(state := Stopped)
       case ExecuteFromTop =>
         if s.loop then s else s.(state := Stopped)
       case Sleep => s)
    case Suspended(c) => s.(cont := Some(c), state := Paused)
    case Aborted => s.(state := Stopped)
    case Interrupted => s.(state := Stopped)
    case Failed => WorkerExit(s)
  }

  /** stop(). From Running the controller clears the loop flag, requests the
      abort, and waits for the worker, which takes the abort path of its loop
      and then its finally block. From Paused the state simply becomes Stopped. */
  function Stop<C, V>(s: Runner<C, V>): (r: (Runner<C, V>, StopAnswer))
    ensures s.state == Running && ContextReady(s) ==> r.1 == Answered(true) && !r.0.loop && r.0.abortRequested
    ensures s.state == Running && ContextReady(s) && s.phase == Looping ==>
              r.0.state == Stopped && r.0.phase == Exited && r.0.cont.None? && r.0.result.None?
    ensures s.state == Running && !ContextReady(s) ==> r == (s.(loop := false), NoContext)
    ensures s.state == Paused ==> r == (s.(state := Stopped), Answered(true))
    ensures s.state == Pending || s.state == Stopped ==> r == (s, Answered(false))
    ensures Inv(s) ==> Inv(r.0)
    ensures Inv(s) ==> (r.1 == Answered(true) <==> (s.state == Running && s.phase == Looping) || s.state == Paused)
  {
    match s.state
    case Running =>
      var requested := s.(loop := false);
      if !ContextReady(s) then
        (requested, NoContext)
      else
        var aborting := requested.(abortRequested := true);
        var joined := if aborting.phase == Looping then WorkerExit(WorkerStep(aborting, Aborted)) else aborting;
        (joined, Answered(true))
    case Paused => (s.(state := Stopped), Answered(true))
    case _ => (s, Answered(false))
  }

  /** dispose(): stop() first, then the capability list is cleared and every
      field released. It throws when stop() does, or when the list is gone:
      the worker's configuration dropped it, or an earlier dispose did. */
  function Dispose<C, V>(s: Runner<C, V>): (r: (Runner<C, V>, bool))
    ensures r.1 ==> s.listHeld && r.0 == Stop(s).0.(cont := None, listHeld := false, released := true)
    ensures !s.listHeld ==> !r.1
    ensures !r.1 ==> r.0 == Stop(s).0
    ensures Inv(s) ==> (r.1 <==> s.listHeld && s.phase != Configuring)
    ensures Inv(s) && r.1 ==> r.0.state == s.state && r.0.phase == s.phase
    ensures Inv(s) ==> Inv(r.0)
  {
    var (stopped, answer) := Stop(s);
    if answer.NoContext? || !s.listHeld then
      (stopped, false)
    else
      (stopped.(cont := None, listHeld := false, released := true), true)
  }

  /** The worker left alone: iterations of the run loop, one evaluator outcome
      each, until the loop is left or the given outcomes run out. An outcome
      that the iteration's call cannot end with is passed over. */
  function WorkerLoop<C, V>(s: Runner<C, V>, outcomes: seq<Outcome<C>>): (r: Runner<C, V>)
    ensures Inv(s) ==> Inv(r)
    ensures s.phase == Looping ==> r.phase == Exited || (r.phase == Looping && r.state != Stopped)
    ensures s.phase == Looping && r.phase == Exited ==> r.state == Stopped && r.cont.None? && r.result.None?
    ensures s.phase != Looping ==> r == s
    ensures r.listHeld == s.listHeld && r.released == s.released
    decreases |outcomes|
  {
    if s.phase != Looping then s
    else if s.state == Stopped then WorkerExit(s)
    else if outcomes == [] then s
    else if !Possible(s, outcomes[0]) then WorkerLoop(s, outcomes[1..])
    else WorkerLoop(WorkerStep(s, outcomes[0]), outcomes[1..])
  }

  /** The whole worker thread left alone, from configuration on. */
  function WorkerRun<C, V>(s: Runner<C, V>, setup: Setup, outcomes: seq<Outcome<C>>): (r: Runner<C, V>)
    requires s.phase == Configuring
    ensures Inv(s) ==> Inv(r)
    ensures r.phase == Exited || (r.phase == Looping && r.state != Stopped)
    ensures r.phase == Exited ==> r.state == Stopped && r.cont.None? && r.result.None?
    ensures !setup.Compiled? ==> r.phase == Exited
    ensures r.listHeld <==> setup.FailedHoldingList? && s.listHeld
  {
    WorkerLoop(WorkerBegin(s, setup), outcomes)
  }
}
