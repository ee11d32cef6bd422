/** The controller and the worker thread share the runner's fields without a
    lock. Their interleaving is modelled as an arbitrary sequence of atomic
    steps; the lemmas here hold for every such sequence. */
module RunnerTraces {
  import opened RunnerModel

  /** One atomic step, by the controller or by the worker. */
  datatype Event<C, V> =
    | StartCall
    | ResumeCall(value: V)
    | StopCall
    | DisposeCall
    | WorkerBegins(setup: Setup)
    | WorkerSteps(outcome: Outcome<C>)
    | WorkerExits

  /** A step taken by the worker thread rather than by the controller. */
  predicate ByWorker<C, V>(e: Event<C, V>) {
    e.WorkerBegins? || e.WorkerSteps? || e.WorkerExits?
  }

  /** The effect of one event. Controller calls use the corrected start; a
      worker event that is not enabled where the worker is, or whose outcome
      the iteration's call cannot end with, changes nothing. */
  function Next<C, V>(s: Runner<C, V>, e: Event<C, V>): (r: Runner<C, V>)
    ensures Inv(s) ==> Inv(r)
    ensures Inv(s) && s.state == Stopped ==> r.state == Stopped
    ensures Inv(s) && s.phase == Exited ==> r == s || r == s.(listHeld := false, released := true)
    ensures Inv(s) && s.phase == Exited && !s.listHeld ==> r == s
    ensures Inv(s) && s.state == Paused && ByWorker(e) ==> r == s || r == s.(state := Stopped)
  {
    match e
    case StartCall => StartChecked(s).0
    case ResumeCall(v) => Resume(s, v).0
    case StopCall => Stop(s).0
    case DisposeCall => Dispose(s).0
    case WorkerBegins(setup) =>
      if s.phase == Configuring then WorkerBegin(s, setup) else s
    case WorkerSteps(o) =>
      if s.phase == Looping && s.state != Stopped && Possible(s, o) then WorkerStep(s, o) else s
    case WorkerExits =>
      if s.phase == Looping && s.state == Stopped then WorkerExit(s) else s
  }

  /** The runner after the events of `es`, in order. */
  function Run<C, V>(s: Runner<C, V>, es: seq<Event<C, V>>): Runner<C, V>
    decreases |es|
  {
    if es == [] then s else Run(Next(s, es[0]), es[1..])
  }

  /** Every interleaving keeps the invariant; in particular a Paused runner
      always holds a continuation and a pending result never outlives it. */
  lemma {:induction false} RunPreservesInv<C, V>(s: Runner<C, V>, es: seq<Event<C, V>>)
    requires Inv(s)
    ensures Inv(Run(s, es))
    decreases |es|
  {
    if es != [] {
      RunPreservesInv(Next(s, es[0]), es[1..]);
    }
  }

  /** Every state reachable from a new runner satisfies the invariant. */
  lemma {:induction false} ReachableInv<C, V>(loop: bool, es: seq<Event<C, V>>)
    ensures Inv(Run(Init<C, V>(loop), es))
  {
    RunPreservesInv(Init<C, V>(loop), es);
  }

  /** Stopped is terminal: no interleaving leaves it. */
  lemma {:induction false} StoppedIsTerminal<C, V>(s: Runner<C, V>, es: seq<Event<C, V>>)
    requires Inv(s) && s.state == Stopped
    ensures Run(s, es).state == Stopped
    decreases |es|
  {
    if es != [] {
      StoppedIsTerminal(Next(s, es[0]), es[1..]);
    }
  }

  /** Once the worker has exited, the runner stays Stopped with no
      continuation and no result; the only change left is a dispose releasing
      a capability list the failed configuration still held. */
  lemma {:induction false} ExitedIsFinal<C, V>(s: Runner<C, V>, es: seq<Event<C, V>>)
    requires Inv(s) && s.phase == Exited
    ensures Run(s, es) == s || Run(s, es) == s.(listHeld := false, released := true)
    ensures !s.listHeld ==> Run(s, es) == s
    ensures s.state == Stopped && s.cont.None? && s.result.None?
    decreases |es|
  {
    if es != [] {
      var t := Next(s, es[0]);
      ExitedIsFinal(t, es[1..]);
      if t != s {
        assert t == s.(listHeld := false, released := true);
        assert Run(t, es[1..]) == t;
      }
    }
  }

  /** A Paused runner left to its worker only sleeps: whatever the worker
      does, the runner stays as it is, or an interrupted sleep stops it with
      continuation and result untouched, after which the worker can only run
      its finally block. Only the controller resumes it. */
  lemma {:induction false} PausedWaitsForController<C, V>(s: Runner<C, V>, es: seq<Event<C, V>>)
    requires Inv(s) && s.state == Paused
    requires forall i :: 0 <= i < |es| ==> ByWorker(es[i])
    ensures Run(s, es) == s || Run(s, es) == s.(state := Stopped) || Run(s, es) == WorkerExit(s)
  {
    PausedWorkerSteps(s, s, es);
  }

  /** The induction behind PausedWaitsForController, from any of the three
      states the worker can bring a Paused runner `p` to. */
  lemma {:induction false} PausedWorkerSteps<C, V>(p: Runner<C, V>, t: Runner<C, V>, es: seq<Event<C, V>>)
    requires Inv(p) && p.state == Paused
    requires t == p || t == p.(state := Stopped) || t == WorkerExit(p)
    requires forall i :: 0 <= i < |es| ==> ByWorker(es[i])
    ensures Run(t, es) == p || Run(t, es) == p.(state := Stopped) || Run(t, es) == WorkerExit(p)
    decreases |es|
  {
    if es != [] {
      assert ByWorker(es[0]);
      var u := Next(t, es[0]);
      if t == p {
        assert u == p || u == p.(state := Stopped);
      } else if t == p.(state := Stopped) {
        assert u == t || u == WorkerExit(p);
      } else {
        assert u == t;
      }
      PausedWorkerSteps(p, u, es[1..]);
    }
  }

  /** A looping runner whose script keeps returning normally stays Running
      after any number of completed runs, each restarting from the top with no
      continuation and no result. */
  lemma {:induction false} LoopingNeverStops<C, V>(s: Runner<C, V>, outcomes: seq<Outcome<C>>)
    requires Inv(s) && s.phase == Looping && s.state == Running && s.loop
    requires forall i :: 0 <= i < |outcomes| ==> outcomes[i].Returned?
    ensures WorkerLoop(s, outcomes).state == Running && WorkerLoop(s, outcomes).phase == Looping
    ensures |outcomes| > 0 ==> WorkerLoop(s, outcomes).cont.None? && WorkerLoop(s, outcomes).result.None?
    decreases |outcomes|
  {
    if outcomes != [] {
      assert outcomes[0].Returned?;
      LoopingNeverStops(WorkerStep(s, outcomes[0]), outcomes[1..]);
    }
  }

  /** A script run once (no looping) that returns without suspending takes
      the runner from Pending through Running to Stopped, and the worker exits. */
  lemma ReturningScriptStops<C, V>()
    ensures var s0 := Init<C, V>(false);
            var s1 := Next(s0, StartCall);
            var s2 := Next(s1, WorkerBegins(Compiled));
            var s3 := Next(s2, WorkerSteps(Returned));
            var s4 := Next(s3, WorkerExits);
            && s0.state == Pending && s1.state == Running && s2.state == Running
            && Invocation(s2) == ExecuteFromTop
            && s3.state == Stopped
            && s4 == Run(s0, [StartCall, WorkerBegins(Compiled), WorkerSteps(Returned), WorkerExits])
            && s4.state == Stopped && s4.phase == Exited
  {
  }

  /** A script that waits for a value: it suspends, the runner is Paused; the
      controller's resume(v) makes the worker resume that very continuation
      with v; the script then returns and the runner stops. */
  lemma SuspendResumeRoundTrip<C, V>(c: C, v: V)
    ensures var s2 := Next(Next(Init<C, V>(false), StartCall), WorkerBegins(Compiled));
            var s3 := Next(s2, WorkerSteps(Suspended(c)));
            var s4 := Next(s3, ResumeCall(v));
            var s5 := Next(s4, WorkerSteps(Returned));
            && s3.state == Paused && s3.cont == Some(c)
            && Resume(s3, v).1
            && s4.state == Running && Invocation(s4) == ResumeContinuation(c, Some(v))
            && s5.state == Stopped && s5.cont.None? && s5.result.None?
  {
  }

  /** Stop from Paused needs no worker wake-up; the worker's next look at the
      state sees Stopped and runs its finally block. */
  lemma StopFromPausedThenExit<C, V>(s: Runner<C, V>)
    requires Inv(s) && s.state == Paused
    ensures Stop(s).1 == Answered(true)
    ensures var t := Next(Stop(s).0, WorkerExits);
            t.state == Stopped && t.phase == Exited && t.cont.None? && t.result.None?
  {
  }

  /** start() as written, on a runner whose worker has exited: the state
      becomes Running again with no worker left to run it, and stop() then
      answers true although the runner stays Running (or, after a dispose,
      throws for want of a context). */
  lemma RestartAfterExitLeavesRunning<C, V>(s: Runner<C, V>)
    requires Inv(s) && s.phase == Exited
    ensures !Start(s).1 && Start(s).0.state == Running && !Inv(Start(s).0)
    ensures !s.released ==> Stop(Start(s).0).1 == Answered(true) && Stop(Start(s).0).0.state == Running
    ensures s.released ==> Stop(Start(s).0).1 == NoContext && Stop(Start(s).0).0.state == Running
  {
  }

  /** start() as written, on a Paused runner: the worker resumes the stored
      continuation although no resume(v) supplied a value for it. */
  lemma StartWhilePausedResumes<C, V>(s: Runner<C, V>)
    requires Inv(s) && s.state == Paused && s.result.None?
    ensures Invocation(Start(s).0) == ResumeContinuation(s.cont.value, None)
  {
  }

  /** The first counterexample is reachable: a run-once script that returns
      leaves an exited runner, on which start() as written revives Running. */
  lemma RestartAfterCompletedRun<C, V>()
    ensures var done := Run(Init<C, V>(false), [StartCall, WorkerBegins(Compiled), WorkerSteps(Returned), WorkerExits]);
            && done.state == Stopped
            && Start(done).0.state == Running
            && Stop(Start(done).0) == (Start(done).0.(loop := false, abortRequested := true), Answered(true))
  {
  }

  /** The capability list is dropped only by a configuration that gets past
      loading the host functions. A worker whose configuration failed before
      that exits holding the list, and dispose() then completes; once a
      configuration dropped it, dispose() fails. */
  lemma DisposeAfterFailedConfiguration<C, V>()
    ensures var kept := Run(Init<C, V>(false), [StartCall, WorkerBegins(FailedHoldingList)]);
            && kept.state == Stopped && kept.phase == Exited && kept.listHeld
            && Dispose(kept).1 && Dispose(kept).0.released
    ensures var dropped := Run(Init<C, V>(false), [StartCall, WorkerBegins(FailedAfterDroppingList)]);
            && dropped.state == Stopped && dropped.phase == Exited && !Dispose(dropped).1
  {
  }
}
