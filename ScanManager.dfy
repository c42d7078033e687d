/**
 * The scan manager: two flags (running, paused) set by start/pause/resume/stop, and a worker loop
 * that calls perform_step() until it reports "done" or running is cleared. The worker thread is
 * modelled by a boolean (alive or not) and its loop runs sequentially over the statuses the scan
 * mode's perform_step() calls return, in order.
 */
module ScanManager {
  import opened BaseScanMode
  import opened RasterScan

  /** How a run of the worker loop ends. */
  datatype LoopExit =
    | Finished    // a step returned "done"
    | Cancelled   // running was false when the loop tested it
    | Suspended   // paused: the real loop sleeps and polls, performing no step
    | OutOfSteps  // every supplied step result was consumed without "done"

  /** The number of steps up to and including the first "done", or None if there is none. */
  function StepsUntilDone(results: seq<StepStatus>): (r: Results.Option<nat>)
    ensures r.Some? ==> 1 <= r.value <= |results| && results[r.value - 1] == Done
                        && forall k :: 0 <= k < r.value - 1 ==> results[k] == Running
    ensures r.None? <==> forall k :: 0 <= k < |results| ==> results[k] == Running
  {
    if results == [] then Results.None
    else if results[0] == Done then Results.Some(1)
    else
      match StepsUntilDone(results[1..])
      case None =>
        assert results[0] == Running;
        assert forall k :: 1 <= k < |results| ==> results[k] == results[1..][k - 1];
        Results.None
      case Some(n) => Results.Some(n + 1)
  }

  /** The exit and the number of steps performed by one run of the loop from the given flags. */
  function LoopOutcome(running: bool, paused: bool, results: seq<StepStatus>): (LoopExit, nat) {
    if !running then (Cancelled, 0)
    else if paused then (Suspended, 0)
    else
      match StepsUntilDone(results)
      case Some(n) => (Finished, n)
      case None => (OutOfSteps, |results|)
  }

  /** The status perform_step() reports at each position of a trace. */
  function TraceStatuses(a: Area, t: seq<Position>): (r: seq<StepStatus>)
    ensures |r| == |t|
    ensures forall k :: 0 <= k < |t| ==> (r[k] == Done <==> AreaAdvance(a, t[k]).None?)
  {
    seq(|t|, k requires 0 <= k < |t| => if AreaAdvance(a, t[k]).None? then Done else Running)
  }

  /** A trace whose last step reports "done" makes the loop perform every one of its steps. */
  lemma TraceRunsToDone(a: Area, t: seq<Position>)
    requires |t| >= 1 && AreaAdvance(a, t[|t| - 1]).None?
    requires forall k :: 0 <= k < |t| - 1 ==> AreaAdvance(a, t[k]) == Results.Some(t[k + 1])
    ensures LoopOutcome(true, false, TraceStatuses(a, t)) == (Finished, |t|)
  {
    var results := TraceStatuses(a, t);
    forall k | 0 <= k < |t| - 1
      ensures results[k] == Running
    {
      assert AreaAdvance(a, t[k]) == Results.Some(t[k + 1]);
    }
    StepsUntilDoneFirst(results, |t|, Finished);
  }

  /**
   * Driving a full uniform n-by-n area scan from (0, 0), the loop performs exactly n*n steps and
   * ends because the last one reported "done".
   */
  lemma FullScanTakesAllSteps(a: Area, n: nat)
    requires Uniform(a, n)
    ensures LoopOutcome(true, false, TraceStatuses(a, Trace(a, (0.0, 0.0), n * n))) == (Finished, n * n)
  {
    var t := Trace(a, (0.0, 0.0), n * n);
    FullAreaScanEnds(a, n);
    TraceLinks(a, (0.0, 0.0), n * n);
    TraceRunsToDone(a, t);
  }

  class ScanManager {
    var running: bool
    var paused: bool
    /** Whether the worker thread started by start_scan() is still alive. */
    var workerAlive: bool

    /** A new manager is not running, not paused, and has no worker. */
    constructor ()
      ensures !running && !paused && !workerAlive
    {
      running, paused, workerAlive := false, false, false;
    }

    /** start_scan(): nothing while a worker is alive; otherwise sets the flags and starts one. */
    method StartScan()
      modifies this
      ensures old(workerAlive) ==> running == old(running) && paused == old(paused) && workerAlive
      ensures !old(workerAlive) ==> running && !paused && workerAlive
    {
      if workerAlive {
        return;
      }
      running := true;
      paused := false;
      workerAlive := true;
    }

    /**
     * _run_scan_loop(): performs steps while running and not paused, stopping right after a
     * "done". The loop never clears running itself, so after "done" is_running() still reports
     * true. The worker ends on Finished and Cancelled; on Suspended and OutOfSteps it is still in
     * its loop.
     */
    method RunScanLoop(results: seq<StepStatus>) returns (exit: LoopExit, steps: nat)
      modifies this
      ensures (exit, steps) == LoopOutcome(old(running), old(paused), results)
      ensures running == old(running) && paused == old(paused)
      ensures workerAlive == (exit == Suspended || exit == OutOfSteps)
    {
      steps := 0;
      exit := Cancelled;
      while running
        invariant steps <= |results|
        invariant running == old(running) && paused == old(paused) && exit == Cancelled
        invariant forall k :: 0 <= k < steps ==> results[k] == Running
        invariant paused ==> steps == 0
        invariant !running ==> steps == 0
        decreases |results| - steps
      {
        if paused {
          exit := Suspended;
          break;
        }
        if steps == |results| {
          exit := OutOfSteps;
          break;
        }
        var result := results[steps];
        steps := steps + 1;
        if result == Done {
          exit := Finished;
          break;
        }
      }
      workerAlive := exit == Suspended || exit == OutOfSteps;
      if exit == Finished || exit == OutOfSteps {
        assert old(running) && !old(paused);
        StepsUntilDoneFirst(results, steps, exit);
      } else if exit == Suspended {
        assert old(running) && old(paused) && steps == 0;
      } else {
        assert !old(running) && steps == 0;
      }
    }

    /** pause_scan(): a no-op unless running. */
    method PauseScan()
      modifies this
      ensures running == old(running) && workerAlive == old(workerAlive)
      ensures paused == (if old(running) then true else old(paused))
    {
      if !running {
        return;
      }
      paused := true;
    }

    /** resume_scan(): a no-op unless running. */
    method ResumeScan()
      modifies this
      ensures running == old(running) && workerAlive == old(workerAlive)
      ensures paused == (if old(running) then false else old(paused))
    {
      if !running {
        return;
      }
      paused := false;
    }

    /** stop_scan(): clears both flags from any state. */
    method StopScan()
      modifies this
      ensures !running && !paused && workerAlive == old(workerAlive)
    {
      running := false;
      paused := false;
    }

    method IsRunning() returns (r: bool)
      ensures r == running
    {
      r := running;
    }

    method IsPaused() returns (r: bool)
      ensures r == paused
    {
      r := paused;
    }
  }

  /** Relates where the loop stopped to the first "done" in the results. */
  lemma StepsUntilDoneFirst(results: seq<StepStatus>, steps: nat, exit: LoopExit)
    requires steps <= |results|
    requires exit != Suspended && exit != Cancelled
    requires forall k :: 0 <= k < steps - (if exit == Finished then 1 else 0) ==> results[k] == Running
    requires exit == Finished ==> steps >= 1 && results[steps - 1] == Done
    requires exit == OutOfSteps ==> steps == |results|
    ensures exit == Finished ==> StepsUntilDone(results) == Results.Some(steps)
    ensures exit == OutOfSteps ==> StepsUntilDone(results) == Results.None
  {
  }
}
