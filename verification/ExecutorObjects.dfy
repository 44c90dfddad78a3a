/** Executor and runningTask of internal/task/executor.go as objects over the run
    store.  Each call, taken without interference, is a run of the machine in
    Executor: the contracts state the store through StoreOf. */
module ExecutorObjects {
  import opened Wrappers
  import opened Runs
  import opened Executor

  datatype Result<+T> = Ok(value: T) | Err(error: Error)

  datatype Error = ShutDown | AlreadyRunning(id: RunId) | NotFound | NotCancellable(status: Status) | CancelFailed

  /** The machine's view of the run store. */
  ghost function StoreOf(runs: map<RunId, Run>): map<RunId, Info>
    reads runs.Values
  {
    map id | id in runs :: Info(runs[id].task, runs[id].status)
  }

  datatype Handle = Handle(ctx: Context, pgid: int, killed: bool)

  /** Context cancelled and, if a process group was published, the group killed. */
  function Halted(h: Handle): Handle {
    Handle(if h.ctx == Alive then Canceled else h.ctx, h.pgid, h.killed || h.pgid > 0)
  }

  class RunningTask {
    var ctx: Context
    var pgid: int
    var killed: bool

    constructor ()
      ensures ctx == Alive && pgid == 0 && !killed
    {
      ctx, pgid, killed := Alive, 0, false;
    }

    method SetPgid(pid: int)
      modifies `pgid
      ensures pgid == pid
    {
      pgid := pid;
    }

    /** Sends the kill exactly when a process group has been published. */
    method KillGroup()
      modifies `killed
      ensures killed == (old(killed) || pgid > 0)
    {
      if pgid > 0 { killed := true; }
    }

    function State(): Handle
      reads this
    {
      Handle(ctx, pgid, killed)
    }

    method Cancel()
      modifies `ctx
      ensures ctx == if old(ctx) == Alive then Canceled else old(ctx)
    {
      if ctx == Alive { ctx := Canceled; }
    }
  }

  /** A runningTask seen as the machine sees it. */
  predicate Shows(h: Handle, job: Job) {
    h.ctx == job.ctx && (h.pgid > 0) == job.published && h.killed == job.killed
  }

  class TaskExecutor {
    const runStore: RunStore
    var running: map<RunId, RunningTask>
    var closed: bool

    constructor (store: RunStore)
      ensures runStore == store && running == map[] && !closed
    {
      runStore, running, closed := store, map[], false;
    }

    ghost predicate Valid()
      reads this, runStore
    {
      && runStore.Valid()
      && forall i, j :: i in running && j in running && running[i] == running[j] ==> i == j
    }

    /** The locked section of Run: refused after Close, refused while the task
        has an active run, else a pending run is created and registered. */
    method Run(task: TaskId, id: RunId, now: int) returns (result: Result<Run>, ghost pruned: set<RunId>)
      requires Valid() && id !in runStore.runs && id !in running
      modifies this`running, runStore
      ensures Valid()
      ensures result.Err? ==>
                && running == old(running)
                && runStore.runs == old(runStore.runs) && runStore.byTask == old(runStore.byTask)
      ensures result == Err(ShutDown) <==> closed
      ensures result.Ok? <==> !closed && !old(TaskBusy(StoreOf(runStore.runs), task))
      ensures result.Ok? ==>
                && StoreOf(runStore.runs) == old(StoreOf(runStore.runs))[id := Info(task, Pending)] - pruned
                && (forall i :: i in pruned ==>
                      i == id || (i in old(runStore.runs) && old(runStore.runs)[i].task == task))
                && id in running && fresh(running[id]) && running == old(running)[id := running[id]]
                && Shows(running[id].State(), Job(Begin, Alive, false, false, false, false))
                && (forall i :: i in pruned && i != id ==> !Active(old(runStore.runs[i].status)))
                && (old(Fits(List(runStore.byTask, task), now, runStore.maxRunsPerTask)) ==> id !in pruned)
    {
      hide Agree, Sorted, SameRuns, Kept, Pruned, TaskBusy, Fits, Stale;
      pruned := {};
      if closed { return Err(ShutDown), pruned; }
      var existing := runStore.GetRunning(task);
      assert existing.Some? <==> TaskBusy(StoreOf(runStore.runs), task) by { BusyIff(runStore.runs, task, existing); }
      if existing.Some? { return Err(AlreadyRunning(existing.value.id)), pruned; }
      var run;
      run, pruned := CreateRun(task, id, now);
      var rt := new RunningTask();
      running := running[id := rt];
      result := Ok(run);
    }

    /** Create, seen through the machine's store: the runs that leave it are of
        this task, none of them is active when the task was not busy, and the new
        run is not among them while the clock has not stepped back. */
    method CreateRun(task: TaskId, id: RunId, now: int) returns (run: Run, ghost pruned: set<RunId>)
      requires runStore.Valid() && id !in runStore.runs
      requires forall i :: i in runStore.runs && runStore.runs[i].task == task ==> !Active(runStore.runs[i].status)
      modifies runStore
      ensures runStore.Valid()
      ensures StoreOf(runStore.runs) == old(StoreOf(runStore.runs))[id := Info(task, Pending)] - pruned
      ensures forall i :: i in pruned ==> i == id || (i in old(runStore.runs) && old(runStore.runs)[i].task == task)
      ensures forall i :: i in pruned && i != id ==> !Active(old(runStore.runs[i].status))
      ensures old(Fits(List(runStore.byTask, task), now, runStore.maxRunsPerTask)) ==> id !in pruned
    {
      hide Agree, Sorted, SameRuns, Kept, Pruned, Fits, Stale;
      ghost var before := runStore.runs;
      ghost var full;
      run, full := runStore.Create(task, id, now);
      pruned := set i | i in before.Keys + {id} && i !in runStore.runs;
    }

    /** rt.cancel, then rt.killGroup. */
    method Kill(id: RunId)
      requires id in running
      modifies running[id]
      ensures running[id].State() == Halted(old(running[id].State()))
      ensures running[id].ctx != Alive && running[id].pgid == old(running[id].pgid)
      ensures old(running[id].pgid) > 0 ==> running[id].killed
    {
      var rt := running[id];
      rt.Cancel();
      rt.KillGroup();
    }

    /** Cancel without interference.  A registered run is marked first, then its
        context is cancelled, then its group is killed if it has one: afterwards the
        run is not active, its context has ended, and a published group was killed. */
    method Cancel(id: RunId, now: int) returns (result: Result<()>)
      requires Valid()
      modifies if id in runStore.runs then {runStore.runs[id]} else {}
      modifies if id in running then {running[id]} else {}
      ensures Valid()
      ensures result == if id in running then Ok(()) else old(Unregistered(id))
      ensures runStore.Only(id, r => Stopped(r, now))
      ensures forall i :: i in running ==>
                running[i].State() == if i == id then Halted(old(running[i].State())) else old(running[i].State())
      ensures id in running ==> running[id].ctx != Alive && running[id].pgid == old(running[id].pgid)
      ensures id in running && old(running[id].pgid) > 0 ==> running[id].killed
      ensures id in runStore.runs && old(Active(runStore.runs[id].status)) ==> runStore.runs[id].status == Cancelled
    {
      hide Agree;
      if id in running {
        var ok := runStore.Cancel(id, now);
        Kill(id);
        return Ok(());
      }
      var copy := runStore.Get(id);
      if copy == None { return Err(NotFound); }
      if !Active(copy.value.status) { return Err(NotCancellable(copy.value.status)); }
      var ok := runStore.Cancel(id, now);
      result := if ok then Ok(()) else Err(CancelFailed);
    }

    // ------------------------------------------------------ executeTask

    function Stored(id: RunId): Option<Status>
      reads runStore, runStore.runs.Values
    {
      if id in runStore.runs then Some(runStore.runs[id].status) else None
    }

    /** Runs may leave the store and new ones may come, none is replaced. */
    twostate predicate Renews()
      reads runStore
    {
      forall i :: i in runStore.runs ==>
        (i in old(runStore.runs) && runStore.runs[i] == old(runStore.runs)[i]) || fresh(runStore.runs[i])
    }

    /** Someone may cancel the context, the deadline may pass, the group may be killed. */
    method Nudge(rt: RunningTask)
      modifies rt`ctx, rt`killed
      ensures old(rt.ctx) != Alive ==> rt.ctx == old(rt.ctx)
      ensures old(rt.killed) ==> rt.killed
    {
      var cancelled, expired, killed: bool := *, *, *;
      if cancelled { rt.Cancel(); }
      if expired && rt.ctx == Alive { rt.ctx := DeadlineExceeded; }
      if killed { rt.KillGroup(); }
    }

    /** Another Run call may create a run, of any task, and prune older ones. */
    method CreateOther(id: RunId)
      requires runStore.Valid()
      modifies runStore
      ensures runStore.Valid() && Renews()
      ensures Stored(id) == None || Stored(id) == old(Stored(id))
    {
      hide Agree, Sorted, SameRuns, Kept, Pruned, Fits, Stale;
      var created: bool, other: RunId, task: TaskId, now: int := *, *, *, *;
      if created && other != id && other !in runStore.runs {
        var run, full := runStore.Create(task, other, now);
      }
    }

    /** The run may be cancelled, and its task deleted. */
    method Unsettle(id: RunId, task: TaskId, now: int)
      requires runStore.Valid()
      modifies runStore, runStore.runs.Values
      ensures runStore.Valid() && Renews()
      ensures Stored(id) == None || Stored(id) == old(Stored(id)) || Stored(id) == CancelStored(old(Stored(id)))
    {
      hide Agree;
      var marked, deleted: bool := *, *;
      if marked { var ok := runStore.Cancel(id, now); }
      if deleted { runStore.DeleteByTask(task); }
    }

    /** The run and its context as they were. */
    twostate predicate Untouched(id: RunId, rt: RunningTask)
      reads runStore, runStore.runs.Values, rt
    {
      Stored(id) == old(Stored(id)) && rt.ctx == old(rt.ctx) && rt.killed == old(rt.killed)
    }

    /** Everything others may do meanwhile: cancel the run, delete its task,
        create other runs, cancel its context or kill its group, and the deadline
        may pass; nothing when the goroutine is alone. */
    method Interfere(id: RunId, rt: RunningTask, task: TaskId, now: int, alone: bool)
      requires runStore.Valid()
      modifies runStore, runStore.runs.Values, rt`ctx, rt`killed
      ensures runStore.Valid() && Renews()
      ensures Stored(id) == None || Stored(id) == old(Stored(id)) || Stored(id) == CancelStored(old(Stored(id)))
      ensures old(rt.ctx) != Alive ==> rt.ctx == old(rt.ctx)
      ensures old(rt.killed) ==> rt.killed
      ensures alone ==> Untouched(id, rt)
    {
      hide Agree;
      if alone { return; }
      Nudge(rt);
      Unsettle(id, task, now);
      CreateOther(id);
      Nudge(rt);
    }

    /** Complete or Fail, seen through the status and the output. */
    method Conclude(id: RunId, success: bool, text: string, now: int)
      requires runStore.Valid()
      modifies if id in runStore.runs then {runStore.runs[id]} else {}
      ensures runStore.Valid() && runStore.runs == old(runStore.runs)
      ensures id in runStore.runs ==>
                runStore.runs[id].status ==
                  Concluded(old(runStore.runs[id].status), if success then Completed else Failed)
      ensures id in runStore.runs && old(runStore.runs[id].status) != Cancelled ==>
                runStore.runs[id].output == if success then text else old(runStore.runs[id].output)
    {
      hide Agree;
      if success { runStore.Complete(id, text, now); } else { runStore.Fail(id, text, now); }
    }

    /** After the context ended: a timeout fails the run, anything else cancels it. */
    method ConcludeByContext(id: RunId, ctx: Context, now: int)
      requires runStore.Valid()
      modifies if id in runStore.runs then {runStore.runs[id]} else {}
      ensures runStore.Valid() && runStore.runs == old(runStore.runs)
      ensures id in runStore.runs ==> runStore.runs[id].status == ByContext(old(runStore.runs[id].status), ctx)
      ensures id in runStore.runs && old(runStore.runs[id].status) != Cancelled ==>
                runStore.runs[id].output == old(runStore.runs[id].output)
    {
      hide Agree;
      if ctx == DeadlineExceeded {
        Conclude(id, false, "task timed out", now);
      } else {
        var ok := runStore.Cancel(id, now);
      }
    }

    method KeepOutput(id: RunId, output: string)
      requires runStore.Valid()
      modifies if id in runStore.runs then {runStore.runs[id]} else {}
      ensures runStore.Valid() && runStore.runs == old(runStore.runs)
      ensures id in runStore.runs ==>
                runStore.runs[id].status == old(runStore.runs[id].status) && runStore.runs[id].output == output
    {
      hide Agree;
      runStore.SetOutput(id, output);
    }

    /** Records a verdict with the output.  A run cancelled before stays cancelled. */
    method Settle(id: RunId, verdict: Verdict, ctx: Context, output: string, now: int)
      requires runStore.Valid()
      modifies if id in runStore.runs then {runStore.runs[id]} else {}
      ensures runStore.Valid() && runStore.runs == old(runStore.runs)
      ensures Stored(id) == NextStored(Job(Judged(verdict), ctx, true, true, false, false), old(Stored(id)), Proceed)
      ensures id in runStore.runs && old(runStore.runs[id].status) != Cancelled ==>
                runStore.runs[id].output == output
    {
      hide Agree, ByContext, Concluded;
      match verdict {
        case Success => Conclude(id, true, output, now);
        case Failure =>
          Conclude(id, false, "command failed", now);
          KeepOutput(id, output);
        case FromContext =>
          KeepOutput(id, output);
          ConcludeByContext(id, ctx, now);
      }
    }

    /** executeTask with others at work between any two of its steps.  It leaves
        its run decided or gone, starts a process only for a run that was still
        pending, and a process it started was sent the kill unless its context
        was still alive after the group id had been published; nor does it leave
        a process behind that neither exited nor was killed.  While the context
        lives a pending run is started, and what it is recorded as is what its
        command did; alone, nothing else can become of it. */
    method ExecuteTask(
      id: RunId, rt: RunningTask, task: TaskId, dirOk: bool, launchOk: bool, pid: int, failed: bool,
      output: string, now: int, alone: bool)
      returns (started: bool, exited: bool, ghost sawAlive: bool)
      requires runStore.Valid() && pid > 0 && StageOk(Begin, Stored(id))
      modifies runStore, runStore.runs.Values, rt
      ensures runStore.Valid()
      ensures Stored(id).Some? ==> Terminal(Stored(id).value)
      ensures started ==> old(Stored(id)) == Some(Pending) && rt.pgid == pid && (rt.killed || sawAlive)
      ensures !started ==> rt.pgid == old(rt.pgid)
      ensures started ==> exited || rt.killed
      ensures started ==> dirOk && launchOk && old(rt.ctx) == Alive
      ensures old(Stored(id)) == Some(Pending) && dirOk && launchOk && rt.ctx == Alive ==> started
      ensures old(Stored(id)) != Some(Pending) ==> Stored(id) == old(Stored(id))
      ensures started && rt.ctx == Alive && Stored(id).Some? && Stored(id) != Some(Cancelled) ==>
                Stored(id) == Some(if failed then Failed else Completed)
      ensures Stored(id) == Some(Completed) ==> started && !failed
      ensures started && Stored(id).Some? && Stored(id) != Some(Cancelled) ==> runStore.runs[id].output == output
      ensures alone && old(Stored(id)) == Some(Pending) && old(rt.ctx) == Alive ==>
                && started == (dirOk && launchOk) && rt.ctx == Alive && rt.killed == old(rt.killed)
                && Stored(id) == Some(if dirOk && launchOk && !failed then Completed else Failed)
    {
      hide Agree, NextStored, CancelStored;
      started, exited, sawAlive := false, false, false;
      var ok := runStore.MarkRunning(id);
      if !ok { return; }
      started, exited, sawAlive := ExecuteMarked(id, rt, task, dirOk, launchOk, pid, failed, output, now, alone);
    }

    method ExecuteMarked(
      id: RunId, rt: RunningTask, task: TaskId, dirOk: bool, launchOk: bool, pid: int, failed: bool,
      output: string, now: int, alone: bool)
      returns (started: bool, exited: bool, ghost sawAlive: bool)
      requires runStore.Valid() && pid > 0 && StageOk(Validating, Stored(id))
      modifies runStore, runStore.runs.Values, rt
      ensures runStore.Valid()
      ensures Stored(id).Some? ==> Terminal(Stored(id).value)
      ensures started ==> rt.pgid == pid && (rt.killed || sawAlive)
      ensures !started ==> rt.pgid == old(rt.pgid)
      ensures started ==> exited || rt.killed
      ensures started ==> dirOk && launchOk && old(rt.ctx) == Alive
      ensures dirOk && launchOk && rt.ctx == Alive ==> started
      ensures started && rt.ctx == Alive && Stored(id).Some? && Stored(id) != Some(Cancelled) ==>
                Stored(id) == Some(if failed then Failed else Completed)
      ensures Stored(id) == Some(Completed) ==> started && !failed
      ensures started && Stored(id).Some? && Stored(id) != Some(Cancelled) ==> runStore.runs[id].output == output
      ensures alone && old(Stored(id)) == Some(Running) && old(rt.ctx) == Alive ==>
                && started == (dirOk && launchOk) && rt.ctx == Alive && rt.killed == old(rt.killed)
                && Stored(id) == Some(if dirOk && launchOk && !failed then Completed else Failed)
    {
      hide Agree, NextStored, CancelStored, StageOk;
      exited, sawAlive := false, false;
      started := Prepare(id, rt, task, dirOk, launchOk, now, alone);
      if started { exited, sawAlive := AfterStart(id, rt, task, pid, failed, output, now, alone); }
    }

    /** Refused before the start: failed, unless it was cancelled. */
    method Refuse(id: RunId, error: string, now: int)
      requires runStore.Valid() && StageOk(Validating, Stored(id))
      modifies if id in runStore.runs then {runStore.runs[id]} else {}
      ensures runStore.Valid() && Renews() && Stored(id).Some? == old(Stored(id)).Some?
      ensures Stored(id).Some? ==> Stored(id) == Some(if old(Stored(id)) == Some(Cancelled) then Cancelled else Failed)
    {
      hide Agree;
      Conclude(id, false, error, now);
    }

    /** The context ended before the start: a timeout fails the run, unless it was
        cancelled, and a cancel cancels it. */
    method EndEarly(id: RunId, ctx: Context, now: int)
      requires runStore.Valid() && StageOk(Validating, Stored(id))
      modifies if id in runStore.runs then {runStore.runs[id]} else {}
      ensures runStore.Valid() && Renews() && Stored(id).Some? == old(Stored(id)).Some?
      ensures Stored(id).Some? ==>
                Stored(id) ==
                  Some(if ctx == DeadlineExceeded && old(Stored(id)) != Some(Cancelled) then Failed else Cancelled)
    {
      hide Agree;
      ConcludeByContext(id, ctx, now);
    }

    /** Everything before the start; a run that does not get there ends here:
        failed when it was refused or timed out, cancelled when its context was. */
    method Prepare(id: RunId, rt: RunningTask, task: TaskId, dirOk: bool, launchOk: bool, now: int, alone: bool)
      returns (started: bool)
      requires runStore.Valid() && StageOk(Validating, Stored(id))
      modifies runStore, runStore.runs.Values, rt`ctx, rt`killed
      ensures runStore.Valid() && Renews()
      ensures started ==> StageOk(Validating, Stored(id))
      ensures !started && Stored(id).Some? ==> Stored(id) == Some(Failed) || Stored(id) == Some(Cancelled)
      ensures started ==> dirOk && launchOk && old(rt.ctx) == Alive
      ensures dirOk && launchOk && rt.ctx == Alive ==> started
      ensures !dirOk && Stored(id).Some? && Stored(id) != Some(Cancelled) ==> Stored(id) == Some(Failed)
      ensures dirOk && old(rt.ctx) == Canceled && Stored(id).Some? ==> Stored(id) == Some(Cancelled)
      ensures alone && started ==> Untouched(id, rt)
      ensures alone && !started ==> rt.ctx == old(rt.ctx) && rt.killed == old(rt.killed)
      ensures alone && !started && old(Stored(id)) == Some(Running) ==>
                Stored(id) == Some(if dirOk && old(rt.ctx) == Canceled then Cancelled else Failed)
    {
      hide Agree, NextStored, CancelStored, StageOk;
      started := false;
      Pause(id, rt, task, now, alone);
      if !dirOk {
        Refuse(id, "working directory does not exist", now);
        return;
      }
      Pause(id, rt, task, now, alone);
      if rt.ctx != Alive {
        EndEarly(id, rt.ctx, now);
        return;
      }
      Pause(id, rt, task, now, alone);
      if !launchOk {
        Refuse(id, "failed to start command", now);
        return;
      }
      started := true;
    }

    /** Publication of the group id, the look at the context, and the wait. */
    method AfterStart(
      id: RunId, rt: RunningTask, task: TaskId, pid: int, failed: bool, output: string, now: int, alone: bool)
      returns (exited: bool, ghost sawAlive: bool)
      requires runStore.Valid() && pid > 0 && StageOk(Validating, Stored(id))
      modifies runStore, runStore.runs.Values, rt
      ensures runStore.Valid()
      ensures Stored(id).Some? ==> Terminal(Stored(id).value)
      ensures rt.pgid == pid && (rt.killed || sawAlive) && (exited || rt.killed)
      ensures rt.ctx == Alive && Stored(id).Some? && Stored(id) != Some(Cancelled) ==>
                Stored(id) == Some(if failed then Failed else Completed)
      ensures Stored(id) == Some(Completed) ==> !failed
      ensures Stored(id).Some? && Stored(id) != Some(Cancelled) ==> runStore.runs[id].output == output
      ensures alone && old(rt.ctx) == Alive ==> rt.ctx == Alive && rt.killed == old(rt.killed)
      ensures alone && old(rt.ctx) == Alive && old(Stored(id)) == Some(Running) ==>
                Stored(id) == Some(if failed then Failed else Completed)
    {
      hide Agree, NextStored, CancelStored, StageOk;
      Pause(id, rt, task, now, alone);
      rt.SetPgid(pid);
      Pause(id, rt, task, now, alone);
      sawAlive := rt.ctx == Alive;
      if rt.ctx != Alive { rt.KillGroup(); }
      ghost var seen;
      exited, seen := Await(id, rt, task, failed, output, now, alone);
    }

    /** The select on process exit and context, which kills a process that has not
        exited, and the verdict.  `seen` is the
        context the verdict is taken by: while it is alive the run is recorded as
        its command did, after the deadline as failed, after a cancel as cancelled. */
    method Await(id: RunId, rt: RunningTask, task: TaskId, failed: bool, output: string, now: int, alone: bool)
      returns (exited: bool, ghost seen: Context)
      requires runStore.Valid() && rt.pgid > 0 && StageOk(Validating, Stored(id))
      modifies runStore, runStore.runs.Values, rt`ctx, rt`killed
      ensures runStore.Valid() && Renews()
      ensures old(rt.killed) ==> rt.killed
      ensures !exited ==> rt.killed && seen != Alive
      ensures old(rt.ctx) != Alive ==> seen == old(rt.ctx)
      ensures rt.ctx == Alive ==> seen == Alive
      ensures Stored(id).Some? && Stored(id) != Some(Cancelled) ==>
                && seen != Canceled && runStore.runs[id].output == output
                && (seen == Alive ==> Stored(id) == Some(if failed then Failed else Completed))
                && (seen == DeadlineExceeded ==> Stored(id) == Some(Failed))
      ensures alone ==> rt.ctx == old(rt.ctx) && seen == old(rt.ctx)
      ensures alone && old(rt.ctx) == Alive ==> rt.killed == old(rt.killed)
      ensures alone && old(Stored(id)) == Some(Running) ==> (Stored(id) == Some(Cancelled) <==> seen == Canceled)
      ensures alone && old(Stored(id)) == Some(Running) ==> Stored(id).Some?
    {
      hide Agree, NextStored, CancelStored;
      Pause(id, rt, task, now, alone);
      exited := *;
      seen := rt.ctx;
      if rt.ctx != Alive && !exited {
        rt.KillGroup();
        End(id, FromContext, rt.ctx, output, now);
      } else {
        exited := true;
        var verdict := if rt.ctx != Alive then FromContext else if failed then Failure else Success;
        var ctx := rt.ctx;
        Pause(id, rt, task, now, alone);
        End(id, verdict, ctx, output, now);
      }
    }

    /** Interfere, seen from a run that is being executed. */
    method Pause(id: RunId, rt: RunningTask, task: TaskId, now: int, alone: bool)
      requires runStore.Valid() && StageOk(Validating, Stored(id))
      modifies runStore, runStore.runs.Values, rt`ctx, rt`killed
      ensures runStore.Valid() && Renews() && StageOk(Validating, Stored(id))
      ensures old(rt.ctx) != Alive ==> rt.ctx == old(rt.ctx)
      ensures old(rt.killed) ==> rt.killed
      ensures alone ==> Untouched(id, rt)
    {
      hide Agree;
      Interfere(id, rt, task, now, alone);
    }

    /** Settle for a run that is being executed, in plain statuses. */
    method End(id: RunId, verdict: Verdict, ctx: Context, output: string, now: int)
      requires runStore.Valid() && StageOk(Validating, Stored(id))
      modifies if id in runStore.runs then {runStore.runs[id]} else {}
      ensures runStore.Valid() && Renews()
      ensures Stored(id).Some? == old(Stored(id)).Some?
      ensures old(Stored(id)) == Some(Cancelled) ==> Stored(id) == Some(Cancelled)
      ensures old(Stored(id)) == Some(Running) && verdict == Success ==> Stored(id) == Some(Completed)
      ensures old(Stored(id)) == Some(Running) && verdict == Failure ==> Stored(id) == Some(Failed)
      ensures old(Stored(id)) == Some(Running) && verdict == FromContext ==>
                Stored(id) == Some(if ctx == DeadlineExceeded then Failed else Cancelled)
      ensures Stored(id).Some? && Stored(id) != Some(Cancelled) ==> runStore.runs[id].output == output
    {
      hide Agree;
      Settle(id, verdict, ctx, output, now);
    }

    /** What Cancel answers for a run it does not find registered. */
    function Unregistered(id: RunId): Result<()>
      reads this, runStore, runStore.runs.Values
    {
      if id !in runStore.runs then Err(NotFound)
      else if !Active(runStore.runs[id].status) then Err(NotCancellable(runStore.runs[id].status))
      else Ok(())
    }

    /** Mark, cancel, kill: one entry of the snapshot. */
    method StopRun(id: RunId, now: int)
      requires Valid() && id in running
      modifies runStore.runs.Values, running.Values
      ensures Valid() && runStore.runs == old(runStore.runs) && runStore.byTask == old(runStore.byTask)
      ensures forall i :: i in runStore.runs ==>
                runStore.runs[i].Rec() ==
                  if i == id then Stopped(old(runStore.runs[i].Rec()), now) else old(runStore.runs[i].Rec())
      ensures forall i :: i in running ==>
                running[i].State() == if i == id then Halted(old(running[i].State())) else old(running[i].State())
    {
      hide Agree, Stopped, Halted;
      var ok := runStore.Cancel(id, now);
      Kill(id);
    }

    /** The loop over the snapshot. */
    method StopAll(now: int)
      requires Valid()
      modifies runStore.runs.Values, running.Values
      ensures Valid() && runStore.runs == old(runStore.runs) && runStore.byTask == old(runStore.byTask)
      ensures forall i :: i in runStore.runs ==>
                runStore.runs[i].Rec() ==
                  if i in running then Stopped(old(runStore.runs[i].Rec()), now) else old(runStore.runs[i].Rec())
      ensures forall i :: i in running ==> running[i].State() == Halted(old(running[i].State()))
    {
      hide Agree, Stopped, Halted, StoreOf, RunningTask.State, Runs.Run.Rec;
      var todo := running.Keys;
      while todo != {}
        invariant todo <= running.Keys && Valid()
        invariant runStore.runs == old(runStore.runs) && runStore.byTask == old(runStore.byTask)
        invariant forall i :: i in runStore.runs ==>
                    runStore.runs[i].Rec() ==
                      if i in running && i !in todo then Stopped(old(runStore.runs[i].Rec()), now)
                      else old(runStore.runs[i].Rec())
        invariant forall i :: i in running ==>
                    running[i].State() == if i in todo then old(running[i].State()) else Halted(old(running[i].State()))
      {
        var id :| id in todo;
        StopRun(id, now);
        todo := todo - {id};
      }
    }

    /** Close: every registered run is marked, its context cancelled, its group
        killed; every other run is left alone. */
    method Close(now: int)
      requires Valid()
      modifies `closed, runStore.runs.Values, running.Values
      ensures Valid() && closed
      ensures runStore.runs == old(runStore.runs) && runStore.byTask == old(runStore.byTask)
      ensures forall i :: i in runStore.runs ==>
                runStore.runs[i].Rec() ==
                  if i in running then Stopped(old(runStore.runs[i].Rec()), now) else old(runStore.runs[i].Rec())
      ensures forall i :: i in running ==> running[i].State() == Halted(old(running[i].State()))
      ensures forall i :: i in running ==> running[i].ctx != Alive && running[i].pgid == old(running[i].pgid)
      ensures forall i :: i in running && old(running[i].pgid) > 0 ==> running[i].killed
      ensures forall i :: i in running && i in runStore.runs && old(Active(runStore.runs[i].status)) ==>
                runStore.runs[i].status == Cancelled
    {
      hide Agree, StoreOf;
      closed := true;
      StopAll(now);
    }
  }

  lemma BusyIff(runs: map<RunId, Run>, task: TaskId, found: Option<Record>)
    requires found == None <==> forall i :: i in runs && runs[i].task == task ==> !Active(runs[i].status)
    ensures found.Some? <==> TaskBusy(StoreOf(runs), task)
  {
    if TaskBusy(StoreOf(runs), task) {
      var i :| IsActive(StoreOf(runs), i) && StoreOf(runs)[i].task == task;
      assert i in runs && runs[i].task == task && Active(runs[i].status);
    }
    if found.Some? {
      var i :| i in runs && runs[i].task == task && Active(runs[i].status);
      assert IsActive(StoreOf(runs), i);
    }
  }
}
