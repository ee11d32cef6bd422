/** The script runner as the object it is: the fields the controller and the
    worker thread share, updated in place by the control calls and by the
    worker's steps. Each method states its new state through the matching
    step of RunnerModel, whose properties are proved there and in RunnerTraces. */
module Scripts {
  import opened RunnerModel

  class ScriptRunner<C, V> {
    var state: State
    var cont: Option<C>
    var result: Option<V>
    var loop: bool
    var abortRequested: bool
    var phase: Phase
    var listHeld: bool
    var released: bool

    /** The shared fields as one value. */
    function Snapshot(): Runner<C, V>
      reads this
    {
      Runner(state, cont, result, loop, abortRequested, phase, listHeld, released)
    }

    /** The object invariant: the fields satisfy RunnerModel.Inv. */
    ghost predicate Valid()
      reads this
    {
      Inv(Snapshot())
    }

    constructor (loop: bool)
      ensures Snapshot() == Init(loop)
      ensures Valid()
    {
      state := Pending;
      cont := None;
      result := None;
      this.loop := loop;
      abortRequested := false;
      phase := Unstarted;
      listHeld := true;
      released := false;
    }

    /** Writes Running, then starts the worker thread; `started` is false when
        the thread call throws because the thread already ran or was dropped. */
    method Start() returns (started: bool)
      modifies this
      ensures (Snapshot(), started) == RunnerModel.Start(old(Snapshot()))
      ensures state == Running
      ensures old(Valid()) && started ==> Valid()
    {
      state := Running;
      started := phase == Unstarted && !released;
      if started {
        phase := Configuring;
      }
    }

    /** start(), then waits for the worker thread to finish; when the thread
        call throws, the wait is never reached. */
    method StartAndWait(setup: Setup, outcomes: seq<Outcome<C>>) returns (started: bool, exited: bool)
      modifies this
      ensures started == RunnerModel.Start(old(Snapshot())).1
      ensures started ==> Snapshot() == WorkerRun(RunnerModel.Start(old(Snapshot())).0, setup, outcomes)
      ensures !started ==> Snapshot() == RunnerModel.Start(old(Snapshot())).0 && !exited
      ensures exited ==> state == Stopped && phase == Exited && cont.None? && result.None?
      ensures old(Valid()) && started ==> Valid()
    {
      started := Start();
      if !started {
        return started, false;
      }
      exited := RunWorker(setup, outcomes);
    }

    /** Hands `v` to the suspended script; succeeds exactly when Paused. */
    method Resume(v: V) returns (ok: bool)
      modifies this
      ensures (Snapshot(), ok) == RunnerModel.Resume(old(Snapshot()), v)
      ensures ok == (old(state) == Paused)
      ensures ok ==> state == Running && result == Some(v) && cont == old(cont)
      ensures !ok ==> unchanged(this)
      ensures old(Valid()) ==> Valid()
    {
      if state == Paused {
        state := Running;
        result := Some(v);
        ok := true;
      } else {
        ok := false;
      }
    }

    /** From Running: clears the loop flag, requests the abort and waits until
        the worker, which then takes its abort path, has run its finally block.
        From Paused: Stopped at once. Otherwise false. */
    method Stop() returns (answer: StopAnswer)
      modifies this
      ensures (Snapshot(), answer) == RunnerModel.Stop(old(Snapshot()))
      ensures old(state) == Running && old(phase) == Looping && !old(released) ==>
                answer == Answered(true) && state == Stopped && phase == Exited && cont.None?
      ensures old(Valid()) ==> Valid()
    {
      if state == Running {
        loop := false;
        if released || !(phase == Looping || phase == Exited) {
          return NoContext;
        }
        abortRequested := true;
        if phase == Looping {
          var call := WorkerStep(Aborted);
          WorkerExit();
        }
        return Answered(true);
      } else if state == Paused {
        state := Stopped;
        return Answered(true);
      } else {
        return Answered(false);
      }
    }

    /** stop(), then clears the capability list and releases the runner;
        false when either part throws. */
    method Dispose() returns (ok: bool)
      modifies this
      ensures (Snapshot(), ok) == RunnerModel.Dispose(old(Snapshot()))
      ensures !old(listHeld) ==> !ok
      ensures old(Valid()) ==> (ok <==> old(listHeld) && old(phase) != Configuring)
      ensures ok ==> released && !listHeld && cont.None?
      ensures old(Valid()) ==> Valid()
    {
      var answer := Stop();
      if answer.NoContext? || !listHeld {
        return false;
      }
      cont := None;
      listHeld := false;
      released := true;
      return true;
    }

    /** The worker configures the context, dropping the capability list on the
        way, and compiles, then writes Running; any exception there goes
        straight to the finally block. */
    method WorkerBegin(setup: Setup)
      requires phase == Configuring
      modifies this
      ensures Snapshot() == RunnerModel.WorkerBegin(old(Snapshot()), setup)
      ensures old(Valid()) ==> Valid()
    {
      match setup {
        case Compiled =>
          state := Running;
          phase := Looping;
          listHeld := false;
        case FailedHoldingList =>
          WorkerExit();
        case FailedAfterDroppingList =>
          listHeld := false;
          WorkerExit();
      }
    }

    /** One iteration of the run loop; `call` is what it asked of the
        evaluator, `o` how that call ended (a sleep only returns or is
        interrupted, and only a sleep is interrupted). */
    method WorkerStep(o: Outcome<C>) returns (call: Call<C, V>)
      requires phase == Looping && state != Stopped
      requires Possible(Snapshot(), o)
      modifies this
      ensures call == Invocation(old(Snapshot()))
      ensures Snapshot() == RunnerModel.WorkerStep(old(Snapshot()), o)
      ensures old(state) != Running ==> unchanged(this) || (state == Stopped && cont == old(cont) && result == old(result))
      ensures old(Valid()) ==> Valid()
    {
      var running := state == Running;
      if running {
        if cont.Some? {
          call := ResumeContinuation(cont.value, result);
        } else {
          call := ExecuteFromTop;
        }
      } else {
        call := Sleep;
      }
      match o {
        case Returned =>
          if running {
            if cont.Some? {
              result := None;
              cont := None;
            }
            if !loop {
              state := Stopped;
            }
          }
        case Suspended(c) =>
          cont := Some(c);
          state := Paused;
        case Aborted =>
          state := Stopped;
        case Interrupted =>
          state := Stopped;
        case Failed =>
          WorkerExit();
      }
    }

    /** The worker's finally block. */
    method WorkerExit()
      modifies this
      ensures Snapshot() == RunnerModel.WorkerExit(old(Snapshot()))
      ensures !old(released) ==> Valid()
    {
      cont := None;
      result := None;
      state := Stopped;
      phase := Exited;
    }

    /** The worker thread's whole run while no controller call interleaves
        (as during startAndWait's join): configure and compile, then loop
        while the state is not Stopped, one evaluator outcome per iteration
        (an outcome the iteration's call cannot end with is passed over).
        `exited` is false when the outcomes run out with the loop still going. */
    method RunWorker(setup: Setup, outcomes: seq<Outcome<C>>) returns (exited: bool)
      requires phase == Configuring
      modifies this
      ensures Snapshot() == WorkerRun(old(Snapshot()), setup, outcomes)
      ensures exited <==> phase == Exited
      ensures exited ==> state == Stopped && cont.None? && result.None?
      ensures old(Valid()) ==> Valid()
    {
      WorkerBegin(setup);
      var i := 0;
      while phase == Looping && state != Stopped && i < |outcomes|
        invariant 0 <= i <= |outcomes|
        invariant phase == Looping || phase == Exited
        invariant phase == Exited ==> state == Stopped && cont.None? && result.None?
        invariant WorkerLoop(Snapshot(), outcomes[i..]) == WorkerRun(old(Snapshot()), setup, outcomes)
        decreases |outcomes| - i
      {
        if Possible(Snapshot(), outcomes[i]) {
          var call := WorkerStep(outcomes[i]);
        }
        i := i + 1;
      }
      if phase == Looping && state == Stopped {
        WorkerExit();
      }
      exited := phase == Exited;
    }
  }
}
