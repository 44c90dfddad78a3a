/** A concrete run in which Executor.Cancel (internal/task/executor.go:180-211)
    reports success for a run that had completed: the run is still registered
    between its verdict and the end of its goroutine. */
module CancelRace {
  import opened Wrappers
  import opened Runs
  import opened Executor
  import opened ExecutorRuns

  /** One task's only run, registered, with nobody else at work. */
  ghost predicate Alone(acts: seq<Action>, job: Job, s: Status) {
    && After(Start(map[]), acts).Some?
    && var w := After(Start(map[]), acts).value;
    && w.store == map[0 := Info(0, s)] && w.jobs == map[0 := job] && w.registered == {0}
    && w.lock == Free && w.callers == map[]
  }

  /** Run creates and registers it. */
  lemma Begins() returns (acts: seq<Action>)
    ensures Alone(acts, Job(Begin, Alive, false, false, false, false), Pending)
  {
    var w := Start(map[]);
    assert After(w, []) == Some(w);
    acts := AfterMore(w, [], w, RunLock(0));
    var v := Do(w, RunLock(0));
    acts := AfterMore(w, acts, v, RunCheck);
    v := Do(v, RunCheck);
    assert v.lock == Cleared(0);
    acts := AfterMore(w, acts, v, RunCreate(0, {}));
    v := Do(v, RunCreate(0, {}));
    acts := AfterMore(w, acts, v, RunRegister);
  }

  /** One step of its goroutine. */
  lemma Steps(acts: seq<Action>, job: Job, s: Status, turn: Turn) returns (more: seq<Action>)
    requires Alone(acts, job, s) && CanStep(job, turn) && job.pc != Gone
    ensures Alone(more, NextJob(job, Some(s), turn), NextStatus(job, s, turn))
  {
    hide NextJob, NextStatus, CanStep;
    more := AfterMore(Start(map[]), acts, After(Start(map[]), acts).value, Step(0, turn));
  }

  /** It starts its process, the process exits, and the run is recorded as completed. */
  lemma Completes() returns (acts: seq<Action>)
    ensures Alone(acts, Job(Leaving, Alive, true, true, false, true), Completed)
  {
    hide Alone;
    acts := Begins();
    acts := Steps(acts, Job(Begin, Alive, false, false, false, false), Pending, Proceed);
    acts := Steps(acts, Job(Validating, Alive, false, false, false, false), Running, Proceed);
    acts := Steps(acts, Job(Probing, Alive, false, false, false, false), Running, Proceed);
    acts := Steps(acts, Job(Launching, Alive, false, false, false, false), Running, Proceed);
    acts := Steps(acts, Job(Publishing, Alive, true, false, false, false), Running, Proceed);
    acts := Steps(acts, Job(PostCheck, Alive, true, true, false, false), Running, Proceed);
    acts := Steps(acts, Job(Waiting, Alive, true, true, false, true), Running, Exit(false));
    acts := Steps(acts, Job(Exited(false), Alive, true, true, false, true), Running, Proceed);
    acts := Steps(acts, Job(Judged(Success), Alive, true, true, false, true), Running, Proceed);
  }

  /** Cancel goes through all its stages - success, for the caller - and the run
      stays completed. */
  lemma CancelOfCompletedRun() returns (w: World)
    ensures Reachable(w) && 0 in w.signalled
    ensures 0 in w.store && w.store[0].status == Completed
  {
    var acts := Completes();
    var v := After(Start(map[]), acts).value;
    w := CancelIsARun(v, 0, 0);
    hide After;
    var more :| After(v, more) == Some(w);
    AfterConcat(Start(map[]), acts, v, more);
    assert Loaded(map[]) && After(Start(map[]), acts + more) == Some(w);
  }
}
